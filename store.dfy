/**
 * The database rows the chat and versioning endpoints of app/api_routes.py
 * read and write, and those endpoints as methods of one `Database` object.
 * Tables keyed by an id are maps; the chat table is a sequence in stored order.
 */
module Store {
  import opened Wrappers
  import opened Conversation
  import opened Completion
  import opened Http

  /** The `generated_by` tag of the built-in chatbots. */
  const SYSTEM_AUTHOR: string := "system"

  datatype User = User(username: string, contributionScore: int)

  /** A chatbot row; `avatarName` is the last segment of its avatar URL. */
  datatype Chatbot = Chatbot(userId: int, public: bool, generatedBy: string, latestVersionId: int,
                             avatarName: string, category: string)

  datatype ChatbotVersion = ChatbotVersion(chatbotId: int, name: string, prompt: string, modifiedBy: string)

  /** One persisted turn of a user's conversation with a chatbot. */
  datatype Chat = Chat(chatbotId: int, userId: int, turn: Turn)

  datatype Image = Image(userId: int, public: bool)

  datatype HttpMethod = Get | Post

  /** The object kinds that publish and delete accept. */
  const PUBLISHABLE_KINDS: set<string> := {"chatbot", "image"}

  /** Who may read and chat with a chatbot: its owner, anyone if public, anyone if built in. */
  function CanAccess(bot: Chatbot, userId: int): (allowed: bool)
    ensures allowed <==> bot.userId == userId || bot.public || bot.generatedBy == SYSTEM_AUTHOR
  {
    !(bot.userId != userId && !bot.public && bot.generatedBy != SYSTEM_AUTHOR)
  }

  /** A completion result Python treats as true: present and non-empty. */
  function Truthy(reply: Option<string>): (truthy: bool)
    ensures truthy <==> reply != None && reply != Some("")
  {
    reply.Some? && reply.value != ""
  }

  predicate BelongsTo(c: Chat, chatbotId: int, userId: int) {
    c.chatbotId == chatbotId && c.userId == userId
  }

  /** The chats of one (chatbot, user) pair, in stored order. */
  function TurnsOf(chats: seq<Chat>, chatbotId: int, userId: int): (mine: seq<Chat>)
    ensures |mine| <= |chats|
    ensures forall c :: c in mine ==> c in chats && BelongsTo(c, chatbotId, userId)
    ensures forall c :: c in chats && BelongsTo(c, chatbotId, userId) ==> c in mine
  {
    if chats == [] then []
    else (if BelongsTo(chats[0], chatbotId, userId) then [chats[0]] else []) + TurnsOf(chats[1..], chatbotId, userId)
  }

  /** The chats of every other pair, in stored order: what clearing one history leaves. */
  function OtherTurns(chats: seq<Chat>, chatbotId: int, userId: int): (rest: seq<Chat>)
    ensures |rest| <= |chats|
    ensures forall c :: c in rest ==> c in chats && !BelongsTo(c, chatbotId, userId)
    ensures forall c :: c in chats && !BelongsTo(c, chatbotId, userId) ==> c in rest
  {
    if chats == [] then []
    else (if BelongsTo(chats[0], chatbotId, userId) then [] else [chats[0]]) + OtherTurns(chats[1..], chatbotId, userId)
  }

  /** The query/response pairs of stored chats. */
  function Turns(chats: seq<Chat>): (turns: seq<Turn>)
    ensures |turns| == |chats|
    ensures forall i :: 0 <= i < |chats| ==> turns[i] == chats[i].turn
  {
    seq(|chats|, i requires 0 <= i < |chats| => chats[i].turn)
  }

  /** Reading the turns of two runs of chats is reading each run in turn. */
  lemma TurnsAppend(a: seq<Chat>, b: seq<Chat>)
    ensures Turns(a + b) == Turns(a) + Turns(b)
  {
    assert forall i :: 0 <= i < |a + b| ==> Turns(a + b)[i] == (Turns(a) + Turns(b))[i];
  }

  /** A chat stored for a pair becomes the last turn of that pair's next context. */
  lemma HistoryGrowsByTurn(chats: seq<Chat>, c: Chat)
    ensures Turns(TurnsOf(chats + [c], c.chatbotId, c.userId)) ==
            Turns(TurnsOf(chats, c.chatbotId, c.userId)) + [c.turn]
  {
    AppendExtendsHistory(chats, c, c.chatbotId, c.userId);
    TurnsAppend(TurnsOf(chats, c.chatbotId, c.userId), [c]);
  }

  /** Clearing splits the table exactly: every chat is either removed or kept, once. */
  lemma {:induction false} ClearPartitions(chats: seq<Chat>, chatbotId: int, userId: int)
    ensures multiset(TurnsOf(chats, chatbotId, userId)) + multiset(OtherTurns(chats, chatbotId, userId)) == multiset(chats)
    ensures |TurnsOf(chats, chatbotId, userId)| + |OtherTurns(chats, chatbotId, userId)| == |chats|
  {
    if chats != [] {
      ClearPartitions(chats[1..], chatbotId, userId);
      assert chats == [chats[0]] + chats[1..];
    }
  }

  /** A table without chats of the pair yields an empty history for it. */
  lemma {:induction false} NoTurnsLeft(chats: seq<Chat>, chatbotId: int, userId: int)
    requires forall c :: c in chats ==> !BelongsTo(c, chatbotId, userId)
    ensures TurnsOf(chats, chatbotId, userId) == []
  {
    if chats != [] {
      assert chats[0] in chats;
      assert forall c :: c in chats[1..] ==> c in chats;
      NoTurnsLeft(chats[1..], chatbotId, userId);
    }
  }

  /** After clearing, the pair has no history, so clearing again deletes nothing. */
  lemma ClearIsIdempotent(chats: seq<Chat>, chatbotId: int, userId: int)
    ensures TurnsOf(OtherTurns(chats, chatbotId, userId), chatbotId, userId) == []
    ensures OtherTurns(OtherTurns(chats, chatbotId, userId), chatbotId, userId) == OtherTurns(chats, chatbotId, userId)
  {
    var rest := OtherTurns(chats, chatbotId, userId);
    NoTurnsLeft(rest, chatbotId, userId);
    ClearPartitions(rest, chatbotId, userId);
    KeepAll(rest, chatbotId, userId);
  }

  lemma {:induction false} KeepAll(chats: seq<Chat>, chatbotId: int, userId: int)
    requires forall c :: c in chats ==> !BelongsTo(c, chatbotId, userId)
    ensures OtherTurns(chats, chatbotId, userId) == chats
  {
    if chats != [] {
      assert chats[0] in chats;
      assert forall c :: c in chats[1..] ==> c in chats;
      KeepAll(chats[1..], chatbotId, userId);
      assert chats == [chats[0]] + chats[1..];
    }
  }

  /** Clearing one (chatbot, user) history leaves every other pair's history as it was. */
  lemma {:induction false} ClearKeepsOtherHistories(chats: seq<Chat>, chatbotId: int, userId: int, otherBot: int, otherUser: int)
    requires chatbotId != otherBot || userId != otherUser
    ensures TurnsOf(OtherTurns(chats, chatbotId, userId), otherBot, otherUser) == TurnsOf(chats, otherBot, otherUser)
  {
    if chats != [] {
      var first, tail := chats[0], chats[1..];
      var rest := OtherTurns(tail, chatbotId, userId);
      ClearKeepsOtherHistories(tail, chatbotId, userId, otherBot, otherUser);
      var mine := if BelongsTo(first, otherBot, otherUser) then [first] else [];
      assert TurnsOf(chats, otherBot, otherUser) == mine + TurnsOf(tail, otherBot, otherUser);
      if BelongsTo(first, chatbotId, userId) {
        assert OtherTurns(chats, chatbotId, userId) == rest;
      } else {
        var kept := [first] + rest;
        assert OtherTurns(chats, chatbotId, userId) == kept;
        assert kept[0] == first && kept[1..] == rest;
        assert TurnsOf(kept, otherBot, otherUser) == mine + TurnsOf(rest, otherBot, otherUser);
      }
    }
  }

  /** A chat appended to the table extends its own pair's history and no other. */
  lemma {:induction false} AppendExtendsHistory(chats: seq<Chat>, c: Chat, chatbotId: int, userId: int)
    ensures TurnsOf(chats + [c], chatbotId, userId) ==
            TurnsOf(chats, chatbotId, userId) + (if BelongsTo(c, chatbotId, userId) then [c] else [])
  {
    if chats != [] {
      AppendExtendsHistory(chats[1..], c, chatbotId, userId);
      assert (chats + [c])[1..] == chats[1..] + [c];
    }
  }

  class Database {
    var users: map<int, User>
    var chatbots: map<int, Chatbot>
    var versions: map<int, ChatbotVersion>
    var chats: seq<Chat>
    var images: map<int, Image>
    /** The next ids the database will assign (autoincrement). */
    var nextChatbotId: int
    var nextVersionId: int
    /** The column default of `generated_by` for chatbots created by users. */
    const defaultGeneratedBy: string

    /** The chatbot's current-version pointer refers to one of its own versions. */
    ghost predicate PointsToOwnVersion(id: int)
      reads this
    {
      id in chatbots && chatbots[id].latestVersionId in versions
      && versions[chatbots[id].latestVersionId].chatbotId == id
    }

    ghost predicate FreshIds()
      reads this
    {
      && (forall id :: id in chatbots ==> id < nextChatbotId)
      && (forall v :: v in versions ==> v < nextVersionId)
    }

    /** Every version belongs to an existing chatbot. */
    ghost predicate VersionsBelong()
      reads this
    {
      forall v :: v in versions ==> versions[v].chatbotId in chatbots
    }

    ghost predicate Valid()
      reads this
    {
      FreshIds() && VersionsBelong() && forall id :: id in chatbots ==> PointsToOwnVersion(id)
    }

    constructor (users: map<int, User>, defaultGeneratedBy: string)
      ensures Valid()
      ensures this.users == users && this.defaultGeneratedBy == defaultGeneratedBy
      ensures chatbots == map[] && versions == map[] && chats == [] && images == map[]
    {
      this.users := users;
      this.defaultGeneratedBy := defaultGeneratedBy;
      chatbots, versions, chats, images := map[], map[], [], map[];
      nextChatbotId, nextVersionId := 1, 1;
    }

    /** The prompt of a chatbot's current version. */
    /** The prompt of the version the chatbot's pointer names: always one of its own versions' prompts. */
    ghost function CurrentPrompt(chatbotId: int): (prompt: string)
      reads this
      requires Valid() && chatbotId in chatbots
      ensures exists v :: v in versions && versions[v].chatbotId == chatbotId && versions[v].prompt == prompt
    {
      var v := chatbots[chatbotId].latestVersionId;
      assert PointsToOwnVersion(chatbotId);
      versions[v].prompt
    }

    /**
     * `Chatbot.create_version`, taken as: append a new version row under a fresh
     * id and move the chatbot's pointer to it. Nothing else changes.
     */
    method CreateVersion(chatbotId: int, name: string, prompt: string, modifiedBy: string) returns (versionId: int)
      requires chatbotId in chatbots && FreshIds() && VersionsBelong()
      requires forall id :: id in chatbots && id != chatbotId ==> PointsToOwnVersion(id)
      modifies this
      ensures Valid()
      ensures versionId == old(nextVersionId) && versionId !in old(versions)
      ensures versions == old(versions)[versionId := ChatbotVersion(chatbotId, name, prompt, modifiedBy)]
      ensures chatbots == old(chatbots)[chatbotId := old(chatbots)[chatbotId].(latestVersionId := versionId)]
      ensures users == old(users) && chats == old(chats) && images == old(images)
      ensures nextChatbotId == old(nextChatbotId) && nextVersionId == old(nextVersionId) + 1
    {
      versionId := nextVersionId;
      versions := versions[versionId := ChatbotVersion(chatbotId, name, prompt, modifiedBy)];
      chatbots := chatbots[chatbotId := chatbots[chatbotId].(latestVersionId := versionId)];
      nextVersionId := nextVersionId + 1;
      forall id | id in chatbots ensures PointsToOwnVersion(id) {
        if id != chatbotId {
          assert old(PointsToOwnVersion(id));
        }
      }
    }

    /**
     * `api_create_chatbot` (JSON form): a private chatbot owned by the caller,
     * its first version, and five contribution points for the caller.
     */
    method CreateChatbot(caller: int, name: string, prompt: string, category: string)
      returns (reply: Reply, chatbotId: int)
      requires Valid()
      modifies this
      ensures Valid()
      ensures caller !in old(users) ==> reply == UNHANDLED_ERROR && unchanged(this)
      ensures caller in old(users) ==>
        && reply == Reply(STATUS_OK, true)
        && chatbotId == old(nextChatbotId) && chatbotId !in old(chatbots)
        && chatbots == old(chatbots)[chatbotId :=
             Chatbot(caller, false, defaultGeneratedBy, old(nextVersionId), name, category)]
        && versions == old(versions)[old(nextVersionId) :=
             ChatbotVersion(chatbotId, name, prompt, old(users)[caller].username)]
        && users == old(users)[caller := old(users)[caller].(contributionScore := old(users)[caller].contributionScore + 5)]
        && chats == old(chats) && images == old(images)
        && nextChatbotId == old(nextChatbotId) + 1 && nextVersionId == old(nextVersionId) + 1
    {
      chatbotId := nextChatbotId;
      if caller !in users {
        return UNHANDLED_ERROR, chatbotId;
      }
      chatbots := chatbots[chatbotId := Chatbot(caller, false, defaultGeneratedBy, nextVersionId, name, category)];
      nextChatbotId := nextChatbotId + 1;
      var _ := CreateVersion(chatbotId, name, prompt, users[caller].username);
      users := users[caller := users[caller].(contributionScore := users[caller].contributionScore + 5)];
      reply := Reply(STATUS_OK, true);
    }

    /**
     * `api_update_chatbot`: the owner records a new version (the pointer moves
     * to it) and the avatar and category follow; anyone else gets a refusal
     * with status 200 and nothing changes.
     */
    method UpdateChatbot(chatbotId: int, caller: int, name: string, prompt: string, category: string)
      returns (reply: Reply)
      requires Valid()
      modifies this
      ensures Valid()
      ensures chatbotId !in old(chatbots) ==> reply == Reply(STATUS_NOT_FOUND, false) && unchanged(this)
      ensures chatbotId in old(chatbots) && caller !in old(users) ==> reply == UNHANDLED_ERROR && unchanged(this)
      ensures chatbotId in old(chatbots) && caller in old(users) && old(chatbots)[chatbotId].userId != caller ==>
        reply == Reply(STATUS_OK, false) && unchanged(this)
      ensures chatbotId in old(chatbots) && caller in old(users) && old(chatbots)[chatbotId].userId == caller ==>
        && reply == Reply(STATUS_OK, true)
        && old(nextVersionId) !in old(versions)
        && versions == old(versions)[old(nextVersionId) :=
             ChatbotVersion(chatbotId, name, prompt, old(users)[caller].username)]
        && chatbots == old(chatbots)[chatbotId := old(chatbots)[chatbotId].(
             latestVersionId := old(nextVersionId), avatarName := name, category := category)]
        && CurrentPrompt(chatbotId) == prompt
        && users == old(users) && chats == old(chats) && images == old(images)
        && nextChatbotId == old(nextChatbotId) && nextVersionId == old(nextVersionId) + 1
    {
      if chatbotId !in chatbots {
        return Reply(STATUS_NOT_FOUND, false);
      }
      if caller !in users {
        return UNHANDLED_ERROR;
      }
      if chatbots[chatbotId].userId != caller {
        return Reply(STATUS_OK, false);
      }
      var versionId := CreateVersion(chatbotId, name, prompt, users[caller].username);
      label Created:
      chatbots := chatbots[chatbotId := chatbots[chatbotId].(avatarName := name, category := category)];
      assert PointsToOwnVersion(chatbotId);
      forall id | id in chatbots ensures PointsToOwnVersion(id) {
        assert old@Created(PointsToOwnVersion(id));
      }
      reply := Reply(STATUS_OK, true);
    }

    /**
     * `api_revert_chatbot`: if the caller owns the chatbot and the version is one
     * of its own, the pointer moves to that version; otherwise 404. No version is
     * ever added or removed.
     */
    method RevertChatbot(chatbotId: int, versionId: int, caller: int)
      returns (reply: Reply, version: Option<ChatbotVersion>)
      requires Valid()
      modifies this
      ensures Valid()
      ensures versions == old(versions)
      ensures nextChatbotId == old(nextChatbotId) && nextVersionId == old(nextVersionId)
      ensures !(chatbotId in old(chatbots) && old(chatbots)[chatbotId].userId == caller) ==>
        reply == Reply(STATUS_NOT_FOUND, false) && version == None && unchanged(this)
      ensures !(versionId in old(versions) && old(versions)[versionId].chatbotId == chatbotId) ==>
        reply == Reply(STATUS_NOT_FOUND, false) && version == None && unchanged(this)
      ensures chatbotId in old(chatbots) && old(chatbots)[chatbotId].userId == caller
              && versionId in old(versions) && old(versions)[versionId].chatbotId == chatbotId ==>
        && reply == Reply(STATUS_OK, true)
        && version == Some(old(versions)[versionId])
        && chatbots == old(chatbots)[chatbotId := old(chatbots)[chatbotId].(latestVersionId := versionId)]
        && users == old(users) && chats == old(chats) && images == old(images)
    {
      if !(chatbotId in chatbots && chatbots[chatbotId].userId == caller) {
        return Reply(STATUS_NOT_FOUND, false), None;
      }
      if !(versionId in versions && versions[versionId].chatbotId == chatbotId) {
        return Reply(STATUS_NOT_FOUND, false), None;
      }
      chatbots := chatbots[chatbotId := chatbots[chatbotId].(latestVersionId := versionId)];
      forall id | id in chatbots ensures PointsToOwnVersion(id) {
        if id != chatbotId {
          assert old(PointsToOwnVersion(id));
        }
      }
      reply, version := Reply(STATUS_OK, true), Some(versions[versionId]);
    }

    /**
     * `api_delete_chatbot`: the owner deletes a chatbot together with all its
     * versions, or an image. A missing row or user makes the handler raise.
     */
    method DeleteObject(kind: string, objId: int, caller: int) returns (reply: Reply)
      requires Valid()
      modifies this
      ensures Valid()
      ensures users == old(users) && chats == old(chats)
      ensures nextChatbotId == old(nextChatbotId) && nextVersionId == old(nextVersionId)
      ensures kind !in PUBLISHABLE_KINDS ==> reply == Reply(STATUS_BAD_REQUEST, false) && unchanged(this)
      ensures kind == "chatbot" && (objId !in old(chatbots) || caller !in old(users)) ==>
        reply == UNHANDLED_ERROR && unchanged(this)
      ensures kind == "image" && (objId !in old(images) || caller !in old(users)) ==>
        reply == UNHANDLED_ERROR && unchanged(this)
      ensures kind == "chatbot" && objId in old(chatbots) && caller in old(users) && old(chatbots)[objId].userId != caller ==>
        reply == Reply(STATUS_FORBIDDEN, false) && unchanged(this)
      ensures kind == "image" && objId in old(images) && caller in old(users) && old(images)[objId].userId != caller ==>
        reply == Reply(STATUS_FORBIDDEN, false) && unchanged(this)
      ensures kind == "chatbot" && objId in old(chatbots) && caller in old(users) && old(chatbots)[objId].userId == caller ==>
        && reply == Reply(STATUS_OK, true)
        && chatbots == old(chatbots) - {objId}
        && versions == (map v | v in old(versions) && old(versions)[v].chatbotId != objId :: old(versions)[v])
        && images == old(images)
      ensures kind == "image" && objId in old(images) && caller in old(users) && old(images)[objId].userId == caller ==>
        && reply == Reply(STATUS_OK, true)
        && images == old(images) - {objId}
        && chatbots == old(chatbots) && versions == old(versions)
    {
      if kind !in PUBLISHABLE_KINDS {
        return Reply(STATUS_BAD_REQUEST, false);
      }
      if kind == "chatbot" {
        if objId !in chatbots || caller !in users {
          return UNHANDLED_ERROR;
        }
        if chatbots[objId].userId != caller {
          return Reply(STATUS_FORBIDDEN, false);
        }
        versions := map v | v in versions && versions[v].chatbotId != objId :: versions[v];
        chatbots := chatbots - {objId};
        forall id | id in chatbots ensures PointsToOwnVersion(id) {
          assert old(PointsToOwnVersion(id));
        }
      } else {
        if objId !in images || caller !in users {
          return UNHANDLED_ERROR;
        }
        if images[objId].userId != caller {
          return Reply(STATUS_FORBIDDEN, false);
        }
        images := images - {objId};
      }
      reply := Reply(STATUS_OK, true);
    }

    /**
     * `api_publish_chatbot`: the owner flips the `public` flag of a chatbot or an
     * image and earns two contribution points; the reply carries the new flag.
     */
    method PublishObject(kind: string, objId: int, caller: int) returns (reply: Reply, public: Option<bool>)
      requires Valid()
      modifies this
      ensures Valid()
      ensures versions == old(versions) && chats == old(chats)
      ensures nextChatbotId == old(nextChatbotId) && nextVersionId == old(nextVersionId)
      ensures kind !in PUBLISHABLE_KINDS ==> reply == Reply(STATUS_BAD_REQUEST, false) && public == None && unchanged(this)
      ensures (kind == "chatbot" && objId !in old(chatbots)) || (kind == "image" && objId !in old(images)) ==>
        reply == Reply(STATUS_NOT_FOUND, false) && public == None && unchanged(this)
      ensures kind == "chatbot" && objId in old(chatbots) ==>
        if caller !in old(users) then reply == UNHANDLED_ERROR && public == None && unchanged(this)
        else if old(chatbots)[objId].userId != caller then
          reply == Reply(STATUS_FORBIDDEN, false) && public == None && unchanged(this)
        else
          && reply == Reply(STATUS_OK, true)
          && public == Some(!old(chatbots)[objId].public)
          && chatbots == old(chatbots)[objId := old(chatbots)[objId].(public := !old(chatbots)[objId].public)]
          && images == old(images)
          && users == old(users)[caller := old(users)[caller].(contributionScore := old(users)[caller].contributionScore + 2)]
      ensures kind == "image" && objId in old(images) ==>
        if caller !in old(users) then reply == UNHANDLED_ERROR && public == None && unchanged(this)
        else if old(images)[objId].userId != caller then
          reply == Reply(STATUS_FORBIDDEN, false) && public == None && unchanged(this)
        else
          && reply == Reply(STATUS_OK, true)
          && public == Some(!old(images)[objId].public)
          && images == old(images)[objId := old(images)[objId].(public := !old(images)[objId].public)]
          && chatbots == old(chatbots)
          && users == old(users)[caller := old(users)[caller].(contributionScore := old(users)[caller].contributionScore + 2)]
    {
      if kind !in PUBLISHABLE_KINDS {
        return Reply(STATUS_BAD_REQUEST, false), None;
      }
      if (kind == "chatbot" && objId !in chatbots) || (kind == "image" && objId !in images) {
        return Reply(STATUS_NOT_FOUND, false), None;
      }
      if caller !in users {
        return UNHANDLED_ERROR, None;
      }
      if kind == "chatbot" {
        if chatbots[objId].userId != caller {
          return Reply(STATUS_FORBIDDEN, false), None;
        }
        chatbots := chatbots[objId := chatbots[objId].(public := !chatbots[objId].public)];
        public := Some(chatbots[objId].public);
        forall id | id in chatbots ensures PointsToOwnVersion(id) {
          assert old(PointsToOwnVersion(id));
        }
      } else {
        if images[objId].userId != caller {
          return Reply(STATUS_FORBIDDEN, false), None;
        }
        images := images[objId := images[objId].(public := !images[objId].public)];
        public := Some(images[objId].public);
      }
      users := users[caller := users[caller].(contributionScore := users[caller].contributionScore + 2)];
      reply := Reply(STATUS_OK, true);
    }

    /**
     * `api_chatbot`. GET returns the caller's history with the chatbot. POST sends
     * the current prompt, that history and the new query to the completion
     * service, and stores the new turn only when the reply is non-empty (500
     * otherwise). A caller who may not access the chatbot gets 403, and then
     * nothing is assembled, sent or stored.
     */
    method ChatbotRequest(chatbotId: int, caller: int, httpMethod: HttpMethod, query: string,
                          apikey: string, engine: string, service: CompletionService)
      returns (reply: Reply, response: Option<string>, history: seq<Chat>)
      requires Valid()
      modifies this, service
      ensures Valid() && unchanged(this`users, this`chatbots, this`versions, this`images)
      ensures unchanged(this`nextChatbotId, this`nextVersionId)
      ensures chatbotId !in old(chatbots) ==>
        reply == Reply(STATUS_NOT_FOUND, false) && chats == old(chats) && service.requests == old(service.requests)
      ensures chatbotId in old(chatbots) && caller !in old(users) ==>
        reply == UNHANDLED_ERROR && chats == old(chats) && service.requests == old(service.requests)
      ensures chatbotId in old(chatbots) && caller in old(users) ==>
        (reply.status == STATUS_FORBIDDEN <==> !CanAccess(old(chatbots)[chatbotId], caller))
      ensures chatbotId in old(chatbots) && caller in old(users) && !CanAccess(old(chatbots)[chatbotId], caller) ==>
        && reply == Reply(STATUS_FORBIDDEN, false) && response == None && history == []
        && chats == old(chats) && service.requests == old(service.requests)
      ensures chatbotId in old(chatbots) && caller in old(users) && CanAccess(old(chatbots)[chatbotId], caller)
              && httpMethod == Get ==>
        && reply == Reply(STATUS_OK, true) && history == TurnsOf(old(chats), chatbotId, caller)
        && chats == old(chats) && service.requests == old(service.requests)
      ensures chatbotId in old(chatbots) && caller in old(users) && CanAccess(old(chatbots)[chatbotId], caller)
              && httpMethod == Post ==>
        var sent := Request(AuthenticatedContext(CurrentPrompt(chatbotId), Turns(TurnsOf(old(chats), chatbotId, caller)), query),
                            apikey, engine);
        && service.requests == old(service.requests) + [sent]
        && response == service.answer(sent)
        && (Truthy(response) ==>
              reply == Reply(STATUS_OK, true)
              && chats == old(chats) + [Chat(chatbotId, caller, Turn(query, response.value))])
        && (!Truthy(response) ==> reply == Reply(STATUS_SERVER_ERROR, false) && chats == old(chats))
    {
      response, history := None, [];
      if chatbotId !in chatbots {
        return Reply(STATUS_NOT_FOUND, false), response, history;
      }
      if caller !in users {
        return UNHANDLED_ERROR, response, history;
      }
      var bot := chatbots[chatbotId];
      if bot.userId != caller && !bot.public && bot.generatedBy != SYSTEM_AUTHOR {
        return Reply(STATUS_FORBIDDEN, false), response, history;
      }
      var mine := TurnsOf(chats, chatbotId, caller);
      if httpMethod == Get {
        return Reply(STATUS_OK, true), response, mine;
      }
      reply, response := Converse(chatbotId, caller, versions[bot.latestVersionId].prompt, mine, query,
                                  apikey, engine, service);
    }

    /**
     * The POST half of `api_chatbot`: send the prompt, the stored history and the
     * query, and keep the new turn only when the reply is non-empty.
     */
    method Converse(chatbotId: int, caller: int, prompt: string, mine: seq<Chat>, query: string,
                    apikey: string, engine: string, service: CompletionService)
      returns (reply: Reply, response: Option<string>)
      requires Valid()
      modifies this, service
      ensures Valid() && unchanged(this`users, this`chatbots, this`versions, this`images)
      ensures unchanged(this`nextChatbotId, this`nextVersionId)
      ensures var sent := Request(AuthenticatedContext(prompt, Turns(mine), query), apikey, engine);
        service.requests == old(service.requests) + [sent] && response == service.answer(sent)
      ensures Truthy(response) ==>
        reply == Reply(STATUS_OK, true) && chats == old(chats) + [Chat(chatbotId, caller, Turn(query, response.value))]
      ensures !Truthy(response) ==> reply == Reply(STATUS_SERVER_ERROR, false) && chats == old(chats)
    {
      var messages := BuildAuthenticatedContext(prompt, Turns(mine), query);
      response := service.Complete(messages, apikey, engine);
      if response.Some? && response.value != "" {
        chats := chats + [Chat(chatbotId, caller, Turn(query, response.value))];
        reply := Reply(STATUS_OK, true);
      } else {
        reply := Reply(STATUS_SERVER_ERROR, false);
      }
    }

    /**
     * `api_clear_chats`: delete every chat of the (chatbot, caller) pair and
     * report how many went; all other chats stay, in order.
     */
    method ClearChats(chatbotId: int, caller: int) returns (reply: Reply, deleted: nat)
      requires Valid()
      modifies this
      ensures Valid() && unchanged(this`users, this`chatbots, this`versions, this`images)
      ensures unchanged(this`nextChatbotId, this`nextVersionId)
      ensures caller !in old(users) ==> reply == UNHANDLED_ERROR && deleted == 0 && chats == old(chats)
      ensures caller in old(users) ==>
        && reply == Reply(STATUS_OK, true)
        && chats == OtherTurns(old(chats), chatbotId, caller)
        && deleted == |TurnsOf(old(chats), chatbotId, caller)| == |old(chats)| - |chats|
        && TurnsOf(chats, chatbotId, caller) == []
    {
      if caller !in users {
        return UNHANDLED_ERROR, 0;
      }
      deleted := |TurnsOf(chats, chatbotId, caller)|;
      ClearPartitions(chats, chatbotId, caller);
      ClearIsIdempotent(chats, chatbotId, caller);
      chats := OtherTurns(chats, chatbotId, caller);
      reply := Reply(STATUS_OK, true);
    }
  }
}
