/**
 * Two computations of the dashboard endpoints: the whitelist filter applied to
 * the requested queue names in `api_get_data` (app/api_routes.py:558-574), and
 * the contribution score shown by `api_get_user_data`
 * (app/api_routes.py:531-537).
 */
module Dashboard {
  import opened Store

  const VALID_QUEUES: set<string> := {
    "system_bots", "my_bots", "my_images", "public_bots", "public_images",
    "user_bots", "trend_today", "leaderboard", "user_images"
  }

  const POINTS_PER_BOT: nat := 5
  const POINTS_PER_IMAGE: nat := 1

  /** `[q for q in queues if q in valid_queues]`. */
  function FilterQueues(queues: seq<string>): (kept: seq<string>)
    ensures |kept| <= |queues|
    ensures forall q :: q in kept ==> q in queues && q in VALID_QUEUES
  {
    if queues == [] then []
    else (if queues[0] in VALID_QUEUES then [queues[0]] else []) + FilterQueues(queues[1..])
  }

  /** The filter keeps each valid name exactly as often as it was requested, and drops the rest. */
  lemma {:induction false} FilterKeepsValidNames(queues: seq<string>)
    ensures forall q :: multiset(FilterQueues(queues))[q] == if q in VALID_QUEUES then multiset(queues)[q] else 0
  {
    if queues != [] {
      FilterKeepsValidNames(queues[1..]);
      assert queues == [queues[0]] + queues[1..];
    }
  }

  /** Filtering a concatenation filters each part, so the requested order is kept. */
  lemma {:induction false} FilterDistributes(a: seq<string>, b: seq<string>)
    ensures FilterQueues(a + b) == FilterQueues(a) + FilterQueues(b)
  {
    if a != [] {
      FilterDistributes(a[1..], b);
      assert (a + b)[0] == a[0] && (a + b)[1..] == a[1..] + b;
    } else {
      assert a + b == b;
    }
  }

  /** A list of valid names passes unchanged; in particular filtering twice is filtering once. */
  lemma {:induction false} FilterKeepsValidList(queues: seq<string>)
    requires forall q :: q in queues ==> q in VALID_QUEUES
    ensures FilterQueues(queues) == queues
  {
    if queues != [] {
      assert queues[0] in queues;
      assert forall q :: q in queues[1..] ==> q in queues;
      FilterKeepsValidList(queues[1..]);
      assert queues == [queues[0]] + queues[1..];
    }
  }

  /** The score formula: five points per chatbot plus one per image. */
  function ContributionScore(numChatbots: nat, numImages: nat): (score: nat)
    ensures score == 5 * numChatbots + numImages
  {
    numChatbots * POINTS_PER_BOT + numImages * POINTS_PER_IMAGE
  }

  /** The ids of the chatbots a user owns (`Chatbot.user_id == user.id`). */
  function OwnedChatbots(chatbots: map<int, Chatbot>, userId: int): (owned: set<int>)
    ensures owned <= chatbots.Keys
  {
    set id | id in chatbots && chatbots[id].userId == userId
  }

  /** The ids of the images a user owns (`Image.user_id == user.id`). */
  function OwnedImages(images: map<int, Image>, userId: int): (owned: set<int>)
    ensures owned <= images.Keys
  {
    set id | id in images && images[id].userId == userId
  }

  /**
   * The score `api_get_user_data` reports for a user: five points per chatbot
   * and one per image the user owns. It is at most what owning every row would
   * give, and 0 for a user who owns no row.
   */
  function DisplayedScore(chatbots: map<int, Chatbot>, images: map<int, Image>, userId: int): (score: nat)
    ensures score <= POINTS_PER_BOT * |chatbots| + POINTS_PER_IMAGE * |images|
    ensures ((forall id :: id in chatbots ==> chatbots[id].userId != userId)
             && (forall id :: id in images ==> images[id].userId != userId)) ==> score == 0
  {
    SubsetCardinality(OwnedChatbots(chatbots, userId), chatbots.Keys);
    SubsetCardinality(OwnedImages(images, userId), images.Keys);
    assert (forall id :: id in chatbots ==> chatbots[id].userId != userId) ==> OwnedChatbots(chatbots, userId) == {};
    assert (forall id :: id in images ==> images[id].userId != userId) ==> OwnedImages(images, userId) == {};
    ContributionScore(|OwnedChatbots(chatbots, userId)|, |OwnedImages(images, userId)|)
  }

  lemma SubsetCardinality(a: set<int>, b: set<int>)
    requires a <= b
    ensures |a| <= |b|
  {
    assert b == a + (b - a);
  }

  /** A new chatbot raises its owner's score by exactly five and leaves everyone else's alone. */
  lemma NewChatbotScore(chatbots: map<int, Chatbot>, images: map<int, Image>, id: int, bot: Chatbot, userId: int)
    requires id !in chatbots
    ensures DisplayedScore(chatbots[id := bot], images, userId) ==
            DisplayedScore(chatbots, images, userId) + (if bot.userId == userId then POINTS_PER_BOT else 0)
  {
    var before, after := OwnedChatbots(chatbots, userId), OwnedChatbots(chatbots[id := bot], userId);
    if bot.userId == userId {
      assert after == before + {id};
    } else {
      assert after == before;
    }
  }

  /** Deleting one of a user's chatbots lowers that user's score by exactly five. */
  lemma DeletedChatbotScore(chatbots: map<int, Chatbot>, images: map<int, Image>, id: int)
    requires id in chatbots
    ensures DisplayedScore(chatbots - {id}, images, chatbots[id].userId) + POINTS_PER_BOT ==
            DisplayedScore(chatbots, images, chatbots[id].userId)
  {
    var userId := chatbots[id].userId;
    var before, after := OwnedChatbots(chatbots, userId), OwnedChatbots(chatbots - {id}, userId);
    assert before == after + {id};
  }

  /** Publishing or unpublishing a chatbot does not change anyone's score. */
  lemma PublishKeepsScore(chatbots: map<int, Chatbot>, images: map<int, Image>, id: int, userId: int)
    requires id in chatbots
    ensures DisplayedScore(chatbots[id := chatbots[id].(public := !chatbots[id].public)], images, userId) ==
            DisplayedScore(chatbots, images, userId)
  {
    assert OwnedChatbots(chatbots[id := chatbots[id].(public := !chatbots[id].public)], userId) ==
           OwnedChatbots(chatbots, userId);
  }
}
