/**
 * One chat turn (`chat`, api/chat/chat.py) against its collaborators: the
 * Redis connection, the conversation store and the RAG service. The turn
 * passes the rate-limit gate, picks the previous question for a follow-up,
 * runs the orchestration, then persists the user message before the
 * assistant message.
 */
module Chat {
  import opened Common
  import opened Text
  import opened Cache
  import opened Prompt
  import opened Rag

  const ChatRateLimit: int := 20
  const ChatRateWindow: int := 60
  const RecentLimit: nat := 5
  const CacheMaxMessages: int := 50
  const ContextPreview: nat := 100

  /** A message as the store keeps it, tagged with its conversation. */
  datatype StoredMessage = StoredMessage(conversationId: string, message: Message)

  /** The messages of one conversation, oldest first. */
  function ConversationMessages(log: seq<StoredMessage>, conversationId: string): (r: seq<Message>)
    ensures |r| <= |log|
    ensures forall m :: m in r <==> StoredMessage(conversationId, m) in log
  {
    if log == [] then []
    else
      var last := log[|log| - 1];
      assert log == log[..|log| - 1] + [last];
      ConversationMessages(log[..|log| - 1], conversationId) + (if last.conversationId == conversationId then [last.message] else [])
  }

  /** `get_recent_messages`: the newest `limit` messages of the conversation, oldest first. */
  function RecentMessages(log: seq<StoredMessage>, conversationId: string, limit: nat): (r: seq<Message>)
    ensures var all := ConversationMessages(log, conversationId);
      |r| == (if |all| <= limit then |all| else limit) && r == all[|all| - |r|..]
  {
    var all := ConversationMessages(log, conversationId);
    if |all| <= limit then all else all[|all| - limit..]
  }

  /**
   * The conversation store (MongoDB `messages`) as an append-only log; a
   * message's id is its position in the log.
   */
  class ConversationStore {
    var log: seq<StoredMessage>

    constructor ()
      ensures log == []
    {
      log := [];
    }

    /**
     * `add_message`: stores the message, then appends it to the cached
     * conversation (newest 50 kept); a cache error is swallowed.
     */
    method AddMessage(conversationId: string, role: string, content: string, redis: RedisConnection?)
      returns (id: nat)
      requires redis != null ==> redis.Valid()
      modifies this, redis
      ensures log == old(log) + [StoredMessage(conversationId, Message(role, content))]
      ensures id == |old(log)|
      ensures redis != null ==> redis.Valid() && redis.online == old(redis.online)
      ensures redis != null ==> redis.vectors == old(redis.vectors) && redis.counters == old(redis.counters)
      ensures redis != null && old(redis.online) ==> redis.lists == old(redis.lists)[ConversationKey(conversationId) :=
        Trimmed(StoredOrEmpty(old(redis.lists), ConversationKey(conversationId)) + [Message(role, content)], CacheMaxMessages)]
      ensures redis != null && !old(redis.online) ==> redis.lists == old(redis.lists)
    {
      id := |log|;
      log := log + [StoredMessage(conversationId, Message(role, content))];
      if redis != null {
        var cached := redis.AddMessageToConversationCache(conversationId, Message(role, content), CacheMaxMessages);
      }
    }
  }

  // ----- Previous questions -----

  /** The contents of the `user` messages, in order (the list comprehension). */
  function UserQueries(messages: seq<Message>): (r: seq<string>)
    ensures |r| <= |messages|
    ensures forall q :: q in r <==> Message("user", q) in messages
  {
    if messages == [] then []
    else
      var last := messages[|messages| - 1];
      assert messages == messages[..|messages| - 1] + [last];
      UserQueries(messages[..|messages| - 1]) + (if last.role == "user" then [last.content] else [])
  }

  /** `previous_queries` for a non-empty message list: the last user question, if there is one. */
  function PreviousQueries(messages: seq<Message>): seq<string> {
    var queries := UserQueries(messages);
    if queries != [] then [queries[|queries| - 1]] else []
  }

  /** The position of the last `user` message, found by searching from the end; -1 when there is none. */
  function LastUserIndex(messages: seq<Message>): (k: int)
    ensures -1 <= k < |messages|
    ensures k >= 0 ==> messages[k].role == "user"
    ensures forall j :: k < j < |messages| ==> messages[j].role != "user"
  {
    if messages == [] then -1
    else if messages[|messages| - 1].role == "user" then |messages| - 1
    else
      var init := messages[..|messages| - 1];
      var k := LastUserIndex(init);
      assert forall j :: k < j < |init| ==> messages[j] == init[j];
      k
  }

  /**
   * At most one previous question is kept: the content of the last `user`
   * message. Messages of other roles are never used, and without a `user`
   * message the list is empty.
   */
  lemma {:induction false} PreviousQueryIsLastUser(messages: seq<Message>)
    ensures PreviousQueries(messages) == if LastUserIndex(messages) >= 0 then [messages[LastUserIndex(messages)].content] else []
  {
    if messages != [] {
      var init := messages[..|messages| - 1];
      PreviousQueryIsLastUser(init);
      if messages[|messages| - 1].role != "user" {
        assert UserQueries(messages) == UserQueries(init);
        if LastUserIndex(init) >= 0 {
          assert messages[LastUserIndex(init)] == init[LastUserIndex(init)];
        }
      }
    }
  }

  /**
   * The previous questions a turn passes on, given the cached conversations
   * and the stored log: none unless the turn is a follow-up; otherwise the
   * last user question of the cached conversation or, on a cache miss, of the
   * newest five stored messages.
   */
  function PreviousFor(lists: map<string, seq<Message>>, log: seq<StoredMessage>, conversationId: string, isFollowUp: bool): seq<string> {
    if !isFollowUp then []
    else if ConversationKey(conversationId) in lists then PreviousQueries(lists[ConversationKey(conversationId)])
    else PreviousQueries(RecentMessages(log, conversationId, RecentLimit))
  }

  /**
   * The history lookup of a follow-up turn: the cached conversation, or on a
   * cache miss the newest five stored messages, written back to the cache
   * only when there are any; then the last user question. Cache errors here
   * are not caught.
   */
  method SelectPreviousQueries(redis: RedisConnection, store: ConversationStore, conversationId: string, isFollowUp: bool)
    returns (r: Result<seq<string>, string>)
    requires redis.Valid()
    modifies redis`lists, redis`ttl
    ensures redis.Valid()
    ensures r.Ok? ==> |r.value| <= 1
    ensures !isFollowUp ==> r == Ok([]) && redis.lists == old(redis.lists) && redis.ttl == old(redis.ttl)
    ensures isFollowUp ==> (r.Err? <==> !redis.online)
    ensures r.Ok? ==> r.value == PreviousFor(old(redis.lists), store.log, conversationId, isFollowUp)
    ensures isFollowUp && redis.online && ConversationKey(conversationId) in old(redis.lists) ==>
      r == Ok(PreviousQueries(old(redis.lists)[ConversationKey(conversationId)])) && redis.lists == old(redis.lists)
    ensures isFollowUp && redis.online && ConversationKey(conversationId) !in old(redis.lists) ==>
      var recent := RecentMessages(store.log, conversationId, RecentLimit);
      r == Ok(PreviousQueries(recent)) &&
      redis.lists == (if recent != [] then old(redis.lists)[ConversationKey(conversationId) := recent] else old(redis.lists))
    ensures !redis.online ==> redis.lists == old(redis.lists)
  {
    if !isFollowUp {
      return Ok([]);
    }
    var cached := redis.GetConversationMessages(conversationId, None);
    if cached.Err? {
      return Err(cached.error);
    }
    var recentMessages: seq<Message>;
    if cached.value.None? {
      recentMessages := RecentMessages(store.log, conversationId, RecentLimit);
      if recentMessages != [] {
        var written := redis.CacheConversationMessages(conversationId, recentMessages, None);
        if written.Err? {
          return Err(written.error);
        }
      }
    } else {
      recentMessages := cached.value.value;
    }
    var previousQueries: seq<string> := [];
    if recentMessages != [] {
      var userQueries := UserQueries(recentMessages);
      if userQueries != [] {
        previousQueries := [userQueries[|userQueries| - 1]];
      }
    }
    assert previousQueries == PreviousQueries(recentMessages);
    r := Ok(previousQueries);
  }

  // ----- The turn -----

  /** Why a turn fails: the 429 of the rate-limit gate, or an error raised by a collaborator. */
  datatype ChatError = RateLimited | Failure(detail: string)

  /** The handler's JSON reply. */
  datatype ChatReply = ChatReply(
    conversationId: string,
    userMessageId: nat,
    assistantMessageId: nat,
    response: string,
    options: seq<string>,
    contextsUsed: seq<string>,
    usedContext: bool,
    needsContext: Option<bool>,
    isBookRelated: Option<bool>)

  /** `contexts_used`: the first 100 characters of each context, in order. */
  function ContextsUsed(contexts: seq<Context>): (r: seq<string>)
    ensures |r| == |contexts|
    ensures forall i :: 0 <= i < |r| ==> |r[i]| <= ContextPreview && StartsWith(contexts[i].content, r[i])
    ensures forall i :: 0 <= i < |r| ==>
      |r[i]| == if |contexts[i].content| <= ContextPreview then |contexts[i].content| else ContextPreview
    ensures forall i :: 0 <= i < |r| ==> |contexts[i].content| <= ContextPreview ==> r[i] == contexts[i].content
  {
    seq(|contexts|, i requires 0 <= i < |contexts| => Take(contexts[i].content, ContextPreview))
  }

  /** The count the gate compares against the limit: the user's counter after this request. */
  function GateCount(redis: RedisConnection, userId: string): int
    reads redis
  {
    CountOf(redis.counters, RateLimitKey(userId)) + 1
  }

  /** Two additions to the cached conversation leave the user message and then the reply as its newest two entries. */
  lemma TwoAddsKeepOrder(stored: seq<Message>, first: Message, second: Message, maxMessages: int)
    requires maxMessages >= 2
    ensures var r := Trimmed(Trimmed(stored + [first], maxMessages) + [second], maxMessages);
      |r| >= 2 && r[|r| - 2..] == [first, second]
  {
    var mid := Trimmed(stored + [first], maxMessages);
    AddKeepsNewest(stored, first, maxMessages);
    assert |mid| >= 1 && mid[|mid| - 1] == first;
    var r := Trimmed(mid + [second], maxMessages);
    AddKeepsNewest(mid, second, maxMessages);
    assert |r| >= 2;
    assert r[|r| - 2] == (mid + [second])[|mid| - 1] == first;
    assert r[|r| - 2..] == [r[|r| - 2], r[|r| - 1]];
  }

  /** Two successive cache additions under one key leave the two messages newest, in order. */
  lemma TurnCached(before: map<string, seq<Message>>, middle: map<string, seq<Message>>, after: map<string, seq<Message>>,
                   key: string, first: Message, second: Message)
    requires middle == before[key := Trimmed(StoredOrEmpty(before, key) + [first], CacheMaxMessages)]
    requires after == middle[key := Trimmed(StoredOrEmpty(middle, key) + [second], CacheMaxMessages)]
    ensures EndsWithTurn(after, key, first, second)
  {
    assert StoredOrEmpty(middle, key) == Trimmed(StoredOrEmpty(before, key) + [first], CacheMaxMessages);
    TwoAddsKeepOrder(StoredOrEmpty(before, key), first, second, CacheMaxMessages);
  }

  /** The cached conversation under `key` ends with the two given messages. */
  predicate EndsWithTurn(lists: map<string, seq<Message>>, key: string, first: Message, second: Message) {
    key in lists && |lists[key]| >= 2 && lists[key][|lists[key]| - 2..] == [first, second]
  }

  /** The persistence step of the handler: the user message, then the assistant message, each stored and cached. */
  method PersistTurn(store: ConversationStore, redis: RedisConnection, conversationId: string, query: string, response: string)
    returns (userMessageId: nat, assistantMessageId: nat)
    requires redis.Valid()
    modifies store, redis
    ensures redis.Valid() && redis.online == old(redis.online)
    ensures redis.vectors == old(redis.vectors) && redis.counters == old(redis.counters)
    ensures store.log == old(store.log) +
      [StoredMessage(conversationId, Message("user", query)), StoredMessage(conversationId, Message("assistant", response))]
    ensures userMessageId == |old(store.log)| && assistantMessageId == |old(store.log)| + 1
    ensures redis.online ==> EndsWithTurn(redis.lists, ConversationKey(conversationId), Message("user", query), Message("assistant", response))
  {
    var user := Message("user", query);
    var assistant := Message("assistant", response);
    ghost var key := ConversationKey(conversationId);
    ghost var before := redis.lists;
    ghost var log := store.log;
    userMessageId := store.AddMessage(conversationId, "user", query, redis);
    ghost var middle := redis.lists;
    assistantMessageId := store.AddMessage(conversationId, "assistant", response, redis);
    assert store.log == log + [StoredMessage(conversationId, user)] + [StoredMessage(conversationId, assistant)];
    if redis.online {
      TurnCached(before, middle, redis.lists, key, user, assistant);
    }
  }

  /**
   * The orchestration outcome of a turn that passed the gate, given the
   * cached conversations, the stored log and the cached query vector.
   */
  function TurnOutcome(svc: Service, lists: map<string, seq<Message>>, log: seq<StoredMessage>, cached: Option<Vector>,
                       query: string, conversationId: string, collectionName: string, topK: int, isFollowUp: bool)
    : Result<RagResult, string>
  {
    Decision(PromptMessages, svc, query, collectionName, topK, PreviousFor(lists, log, conversationId, isFollowUp), cached)
  }

  /** The reply carries the orchestration result: its answer, options and flags, and the previews of its contexts. */
  predicate Replies(reply: ChatReply, result: RagResult) {
    reply.response == result.response && reply.options == result.options &&
    reply.contextsUsed == ContextsUsed(result.contexts) && reply.usedContext == result.usedContext &&
    reply.needsContext == result.needsContext && reply.isBookRelated == result.isBookRelated
  }

  /**
   * The reply's turn was persisted: the log gained the user message and then
   * the assistant message, whose positions are the reply's ids, and the
   * cached conversation ends with the two.
   */
  predicate Persisted(log0: seq<StoredMessage>, log: seq<StoredMessage>, lists: map<string, seq<Message>>,
                      conversationId: string, query: string, reply: ChatReply) {
    log == log0 + [StoredMessage(conversationId, Message("user", query)), StoredMessage(conversationId, Message("assistant", reply.response))] &&
    reply.userMessageId == |log0| && reply.assistantMessageId == |log0| + 1 &&
    EndsWithTurn(lists, ConversationKey(conversationId), Message("user", query), Message("assistant", reply.response))
  }

  /** A turn that passed the gate ends as the orchestration does: failed with its error, or answered with its result. */
  predicate Answers(r: Result<ChatReply, string>, d: Result<RagResult, string>) {
    (r.Ok? <==> d.Ok?) && (d.Err? ==> r == Err(d.error)) && (r.Ok? ==> Replies(r.value, d.value))
  }

  /** The same for the handler's reply: an orchestration error becomes a `Failure`. */
  predicate Handles(r: Result<ChatReply, ChatError>, d: Result<RagResult, string>) {
    (r.Ok? <==> d.Ok?) && (d.Err? ==> r == Err(Failure(d.error))) && (r.Ok? ==> Replies(r.value, d.value))
  }

  /**
   * `chat`: the rate-limit gate (20 per 60 seconds) first, then the previous
   * question, then the orchestration, then the user message and the
   * assistant message are persisted in that order. Options are returned but
   * never persisted.
   */
  method HandleChat(svc: Service, redis: RedisConnection, store: ConversationStore,
                    query: string, queryHash: int, conversationId: string, userId: string,
                    collectionName: string, topK: int, isFollowUp: bool)
    returns (r: Result<ChatReply, ChatError>)
    requires redis.Valid()
    modifies redis, store
    ensures redis.Valid() && redis.online == old(redis.online)
    ensures !old(redis.online) ==> r.Err? && r != Err(RateLimited)
    ensures old(redis.online) ==> redis.counters == old(redis.counters)[RateLimitKey(userId) := old(GateCount(redis, userId))]
    ensures old(redis.online) && old(GateCount(redis, userId)) > ChatRateLimit ==> r == Err(RateLimited)
    ensures r == Err(RateLimited) ==> old(GateCount(redis, userId)) > ChatRateLimit
    ensures r == Err(RateLimited) ==> redis.lists == old(redis.lists) && redis.vectors == old(redis.vectors)
    ensures old(redis.online) && old(GateCount(redis, userId)) <= ChatRateLimit ==>
      Handles(r, TurnOutcome(svc, old(redis.lists), old(store.log), old(CachedVector(redis, queryHash)), query, conversationId, collectionName, topK, isFollowUp))
    ensures r.Err? ==> store.log == old(store.log)
    ensures r.Ok? ==> Persisted(old(store.log), store.log, redis.lists, conversationId, query, r.value)
    ensures r.Ok? ==> forall c :: c in r.value.contextsUsed ==> |c| <= ContextPreview
  {
    var allowed := redis.CheckRateLimit(userId, Some(ChatRateLimit), Some(ChatRateWindow));
    if allowed.Err? {
      return Err(Failure(allowed.error));
    }
    if !allowed.value {
      return Err(RateLimited);
    }
    assert redis.lists == old(redis.lists) && CachedVector(redis, queryHash) == old(CachedVector(redis, queryHash));
    var answered := AnswerTurn(svc, redis, store, query, queryHash, conversationId, collectionName, topK, isFollowUp);
    if answered.Err? {
      return Err(Failure(answered.error));
    }
    r := Ok(answered.value);
  }

  /**
   * The handler after the gate: the previous question, the orchestration,
   * then the two messages persisted in order. The gate reached the server,
   * so the cache calls here do not fail on the connection.
   */
  method AnswerTurn(svc: Service, redis: RedisConnection, store: ConversationStore,
                    query: string, queryHash: int, conversationId: string,
                    collectionName: string, topK: int, isFollowUp: bool)
    returns (r: Result<ChatReply, string>)
    requires redis.Valid() && redis.online
    modifies redis, store
    ensures redis.Valid() && redis.online
    ensures redis.counters == old(redis.counters)
    ensures Answers(r, TurnOutcome(svc, old(redis.lists), old(store.log), old(CachedVector(redis, queryHash)), query, conversationId, collectionName, topK, isFollowUp))
    ensures r.Err? ==> store.log == old(store.log)
    ensures r.Ok? ==> Persisted(old(store.log), store.log, redis.lists, conversationId, query, r.value)
    ensures r.Ok? ==> forall c :: c in r.value.contextsUsed ==> |c| <= ContextPreview
  {
    var previousQueries := SelectPreviousQueries(redis, store, conversationId, isFollowUp);
    assert previousQueries.Ok?;
    var ragResult := DecideAndGenerate(svc, query, queryHash, collectionName, topK, redis, previousQueries.value);
    if ragResult.Err? {
      return Err(ragResult.error);
    }
    var result := ragResult.value;
    var userMessageId, assistantMessageId := PersistTurn(store, redis, conversationId, query, result.response);
    var contextsUsed := ContextsUsed(result.contexts);
    r := Ok(ChatReply(conversationId, userMessageId, assistantMessageId, result.response, result.options,
                      contextsUsed, result.usedContext, result.needsContext, result.isBookRelated));
  }
}
