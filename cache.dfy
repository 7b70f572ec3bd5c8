/**
 * The Redis-backed cache of utils/redis_conn.py: conversation message lists,
 * query embeddings and per-user rate-limit counters, all kept in one key
 * space under the keys `conv:{id}:messages`, `embed:query:{hash}` and
 * `ratelimit:{user}`.
 */
module Cache {
  import opened Common
  import opened Text

  /** An embedding vector; its numbers are carried, never computed on. */
  type Vector = seq<real>

  // ----- Keys -----

  const ConversationPrefix: string := "conv:"
  const ConversationSuffix: string := ":messages"
  const EmbeddingPrefix: string := "embed:query:"
  const RateLimitPrefix: string := "ratelimit:"

  /** `f"conv:{conversation_id}:messages"`, shared by every conversation method and its aliases. */
  function ConversationKey(conversationId: string): string {
    ConversationPrefix + conversationId + ConversationSuffix
  }

  /** `f"embed:query:{hash(query)}"`; the hash of the query is given, as Python computes it. */
  function EmbeddingKey(queryHash: int): string {
    EmbeddingPrefix + IntToString(queryHash)
  }

  /** `f"ratelimit:{user_id}"`. */
  function RateLimitKey(userId: string): string {
    RateLimitPrefix + userId
  }

  /** The three key families never collide: they differ in their first character. */
  lemma KeysDisjoint(conversationId: string, queryHash: int, userId: string)
    ensures ConversationKey(conversationId) != EmbeddingKey(queryHash)
    ensures ConversationKey(conversationId) != RateLimitKey(userId)
    ensures EmbeddingKey(queryHash) != RateLimitKey(userId)
  {
    assert ConversationKey(conversationId)[0] == 'c';
    assert EmbeddingKey(queryHash)[0] == 'e';
    assert RateLimitKey(userId)[0] == 'r';
  }

  /** Different conversations use different keys. */
  lemma ConversationKeyInjective(a: string, b: string)
    ensures ConversationKey(a) == ConversationKey(b) ==> a == b
  {
    if ConversationKey(a) == ConversationKey(b) {
      var n := |ConversationPrefix|;
      assert ConversationKey(a)[n..|ConversationKey(a)| - |ConversationSuffix|] == a;
      assert ConversationKey(b)[n..|ConversationKey(b)| - |ConversationSuffix|] == b;
    }
  }

  /** Different hashes use different keys, so an embedding is read back only for the hash it was written under. */
  lemma EmbeddingKeyInjective(h1: int, h2: int)
    ensures EmbeddingKey(h1) == EmbeddingKey(h2) ==> h1 == h2
  {
    if EmbeddingKey(h1) == EmbeddingKey(h2) {
      var n := |EmbeddingPrefix|;
      assert EmbeddingKey(h1)[n..] == IntToString(h1);
      assert EmbeddingKey(h2)[n..] == IntToString(h2);
      ParseIntRoundTrip(h1);
      ParseIntRoundTrip(h2);
    }
  }

  // ----- List slicing -----

  /** Python's `s[-n:]` for an integer `n` (so `s[-0:]` is all of `s`). */
  function PyTail<T>(s: seq<T>, n: int): (r: seq<T>)
    ensures |r| <= |s| && r == s[|s| - |r|..]
  {
    if n > 0 then (if n < |s| then s[|s| - n..] else s)
    else if -n < |s| then s[-n..]
    else []
  }

  /** The list `add_message_to_conversation_cache` keeps: at most `maxMessages` of the newest, for a positive bound. */
  function Trimmed(messages: seq<Message>, maxMessages: int): (r: seq<Message>)
    ensures |r| <= |messages| && r == messages[|messages| - |r|..]
    ensures maxMessages >= 1 ==> |r| == if |messages| <= maxMessages then |messages| else maxMessages
    ensures maxMessages == 0 ==> r == messages
    ensures maxMessages < 0 ==> r == messages[if -maxMessages < |messages| then -maxMessages else |messages|..]
  {
    if |messages| > maxMessages then PyTail(messages, maxMessages) else messages
  }

  /** The list `get_conversation_messages` returns for a stored list and a `limit`. */
  function Limited(messages: seq<Message>, limit: Option<int>): (r: seq<Message>)
    ensures |r| <= |messages| && r == messages[|messages| - |r|..]
    ensures (limit.Some? && 0 < limit.value < |messages|) ==> |r| == limit.value
    ensures (limit.None? || limit == Some(0) || limit.value >= |messages|) ==> r == messages
  {
    if limit.Some? && limit.value != 0 && |messages| > limit.value then PyTail(messages, limit.value) else messages
  }

  /** A negative `limit` is truthy and below every length, so it drops that many of the oldest messages instead. */
  lemma NegativeLimitDropsOldest(messages: seq<Message>, limit: int)
    requires limit < 0
    ensures Limited(messages, Some(limit)) == messages[if -limit < |messages| then -limit else |messages|..]
  {
  }

  // ----- Settings read from the environment -----

  /**
   * The values of `CACHE_CONTEXT_TTL`, `CACHE_EMBEDDING_TTL`,
   * `RATE_LIMIT_REQUESTS` and `RATE_LIMIT_WINDOW` as integers, fixed when the
   * connection is made.
   */
  datatype Settings = Settings(contextTtl: int, embeddingTtl: int, rateLimitRequests: int, rateLimitWindow: int)

  /** The defaults used when those variables are unset. */
  const DefaultSettings: Settings := Settings(3600, 1800, 10, 60)

  /** How the client is built in `__init__`. */
  datatype ClientConfig =
    | FromUri(uri: string)
    | Direct(host: string, port: int, db: int, password: Option<string>)

  /** `int(REDIS_PORT)`, falling back to 6379 when it is not an integer. */
  function ParsePort(raw: string): (port: int)
    ensures ParseInt(raw).None? ==> port == 6379
    ensures ParseInt(raw).Some? ==> port == ParseInt(raw).value
  {
    match ParseInt(raw)
    case Some(p) => p
    case None => 6379
  }

  /** `int(REDIS_DB)` when it is not blank, falling back to 0 when it is blank or not an integer. */
  function ParseDb(raw: string): (db: int)
    ensures Blank(raw) ==> db == 0
    ensures ParseInt(raw).None? ==> db == 0
    ensures ParseInt(raw).Some? ==> db == ParseInt(raw).value
  {
    if Strip(raw) != "" then
      match ParseInt(raw)
      case Some(d) => d
      case None => 0
    else
      assert ParseInt(raw).None?;
      0
  }

  /**
   * The client configuration `__init__` derives from `REDIS_URI`, `REDIS_HOST`,
   * `REDIS_PORT`, `REDIS_DB` and `REDIS_PASSWORD`: a non-empty URI wins;
   * otherwise host, port and database default to `localhost`, 6379 and 0, and
   * an empty password means none.
   */
  function ClientConfigOf(uri: Option<string>, host: Option<string>, port: Option<string>, db: Option<string>, password: Option<string>): (c: ClientConfig)
    ensures (uri.Some? && uri.value != "") <==> c.FromUri?
    ensures c.Direct? ==> c.host == host.GetOr("localhost")
    ensures c.FromUri? ==> c.uri == uri.value
    ensures c.Direct? && port.None? ==> c.port == 6379
    ensures c.Direct? && db.None? ==> c.db == 0
    ensures c.Direct? ==> c.port == ParsePort(port.GetOr("6379")) && c.db == ParseDb(db.GetOr("0"))
    ensures c.Direct? && c.password.Some? ==> c.password == password
    ensures c.Direct? ==> (c.password.Some? <==> password.Some? && password.value != "")
  {
    if uri.Some? && uri.value != "" then FromUri(uri.value)
    else
      DefaultsParse();
      Direct(
        host.GetOr("localhost"),
        ParsePort(port.GetOr("6379")),
        ParseDb(db.GetOr("0")),
        if password.Some? && password.value != "" then password else None)
  }

  /** The default port and database texts parse to 6379 and 0. */
  lemma DefaultsParse()
    ensures ParseInt("6379") == Some(6379) && ParseInt("0") == Some(0)
  {
    ParseIntRoundTrip(6379);
    ParseIntRoundTrip(0);
    assert IntToString(6379) == "6379";
    assert IntToString(0) == "0";
  }

  // ----- The connection -----

  /** The error a call raises when the server cannot be reached. */
  const ConnectionError: string := "ConnectionError"

  /**
   * A connection to one Redis database. The key space is split by key
   * family into three maps (the families never collide, see KeysDisjoint),
   * and `ttl` records the expiry last set on each key, in seconds.
   * `online` is false when the server cannot be reached: then every call
   * raises and nothing changes.
   */
  class RedisConnection {
    const settings: Settings
    var online: bool
    var lists: map<string, seq<Message>>
    var vectors: map<string, Vector>
    var counters: map<string, int>
    var ttl: map<string, int>

    /** Every counter was created by an increment, and got its window expiry when it was created. */
    ghost predicate Valid()
      reads this
    {
      forall k :: k in counters ==> counters[k] >= 1 && k in ttl
    }

    constructor (settings: Settings, online: bool)
      ensures Valid()
      ensures this.settings == settings && this.online == online
      ensures lists == map[] && vectors == map[] && counters == map[] && ttl == map[]
    {
      this.settings := settings;
      this.online := online;
      lists := map[];
      vectors := map[];
      counters := map[];
      ttl := map[];
    }

    /** `cache_conversation_messages`: replaces the stored list wholesale and sets its expiry. */
    method CacheConversationMessages(conversationId: string, messages: seq<Message>, ttlSeconds: Option<int>)
      returns (r: Result<(), string>)
      requires Valid()
      modifies this`lists, this`ttl
      ensures Valid()
      ensures r.Err? <==> !online
      ensures online ==> lists == old(lists)[ConversationKey(conversationId) := messages]
      ensures online ==> ttl == old(ttl)[ConversationKey(conversationId) := ttlSeconds.GetOr(settings.contextTtl)]
      ensures !online ==> lists == old(lists) && ttl == old(ttl)
    {
      if !online {
        return Err(ConnectionError);
      }
      var key := ConversationKey(conversationId);
      lists := lists[key := messages];
      ttl := ttl[key := ttlSeconds.GetOr(settings.contextTtl)];
      r := Ok(());
    }

    /** `cache_conversation_context`, the legacy alias: the same key and the same effect. */
    method CacheConversationContext(conversationId: string, messages: seq<Message>, ttlSeconds: Option<int>)
      returns (r: Result<(), string>)
      requires Valid()
      modifies this`lists, this`ttl
      ensures Valid()
      ensures r.Err? <==> !online
      ensures online ==> lists == old(lists)[ConversationKey(conversationId) := messages]
      ensures online ==> ttl == old(ttl)[ConversationKey(conversationId) := ttlSeconds.GetOr(settings.contextTtl)]
      ensures !online ==> lists == old(lists) && ttl == old(ttl)
    {
      r := CacheConversationMessages(conversationId, messages, ttlSeconds);
    }

    /**
     * `get_conversation_messages`: `None` for a missing key; otherwise the
     * stored list, cut to its last `limit` messages when `limit` is truthy and
     * below the length.
     */
    method GetConversationMessages(conversationId: string, limit: Option<int>)
      returns (r: Result<Option<seq<Message>>, string>)
      ensures r.Err? <==> !online
      ensures r.Ok? ==> (r.value.None? <==> ConversationKey(conversationId) !in lists)
      ensures r.Ok? && r.value.Some? ==> r.value.value == Limited(lists[ConversationKey(conversationId)], limit)
    {
      if !online {
        return Err(ConnectionError);
      }
      var key := ConversationKey(conversationId);
      if key in lists {
        var messages := lists[key];
        if limit.Some? && limit.value != 0 && |messages| > limit.value {
          return Ok(Some(PyTail(messages, limit.value)));
        }
        return Ok(Some(messages));
      }
      r := Ok(None);
    }

    /** `get_conversation_context`, the legacy alias: the whole stored list under the same key. */
    method GetConversationContext(conversationId: string) returns (r: Result<Option<seq<Message>>, string>)
      ensures r.Err? <==> !online
      ensures r.Ok? ==> (r.value.None? <==> ConversationKey(conversationId) !in lists)
      ensures r.Ok? && r.value.Some? ==> r.value.value == lists[ConversationKey(conversationId)]
    {
      r := GetConversationMessages(conversationId, None);
    }

    /**
     * `add_message_to_conversation_cache`: appends the message to the stored
     * list (a missing key starts from the empty list), keeps the newest
     * `maxMessages` and writes the list back with the context expiry.
     */
    method AddMessageToConversationCache(conversationId: string, message: Message, maxMessages: int)
      returns (r: Result<(), string>)
      requires Valid()
      modifies this`lists, this`ttl
      ensures Valid()
      ensures r.Err? <==> !online
      ensures online ==> lists == old(lists)[ConversationKey(conversationId) :=
        Trimmed(StoredOrEmpty(old(lists), ConversationKey(conversationId)) + [message], maxMessages)]
      ensures online ==> ttl == old(ttl)[ConversationKey(conversationId) := settings.contextTtl]
      ensures !online ==> lists == old(lists) && ttl == old(ttl)
    {
      if !online {
        return Err(ConnectionError);
      }
      var key := ConversationKey(conversationId);
      var messages: seq<Message> := [];
      if key in lists {
        messages := lists[key];
      }
      messages := messages + [message];
      if |messages| > maxMessages {
        messages := PyTail(messages, maxMessages);
      }
      lists := lists[key := messages];
      ttl := ttl[key := settings.contextTtl];
      r := Ok(());
    }

    /** `cache_query_embedding`: stores the vector under the query's embedding key. */
    method CacheQueryEmbedding(queryHash: int, embedding: Vector, ttlSeconds: Option<int>)
      returns (r: Result<(), string>)
      requires Valid()
      modifies this`vectors, this`ttl
      ensures Valid()
      ensures r.Err? <==> !online
      ensures online ==> vectors == old(vectors)[EmbeddingKey(queryHash) := embedding]
      ensures online ==> ttl == old(ttl)[EmbeddingKey(queryHash) := ttlSeconds.GetOr(settings.embeddingTtl)]
      ensures !online ==> vectors == old(vectors) && ttl == old(ttl)
    {
      if !online {
        return Err(ConnectionError);
      }
      var key := EmbeddingKey(queryHash);
      vectors := vectors[key := embedding];
      ttl := ttl[key := ttlSeconds.GetOr(settings.embeddingTtl)];
      r := Ok(());
    }

    /** `get(f"embed:query:{hash(query)}")` as the retriever issues it: the stored vector, if any. */
    method GetQueryEmbedding(queryHash: int) returns (r: Result<Option<Vector>, string>)
      ensures r.Err? <==> !online
      ensures r.Ok? ==> (r.value.Some? <==> EmbeddingKey(queryHash) in vectors)
      ensures r.Ok? && r.value.Some? ==> r.value.value == vectors[EmbeddingKey(queryHash)]
    {
      if !online {
        return Err(ConnectionError);
      }
      var key := EmbeddingKey(queryHash);
      if key in vectors {
        return Ok(Some(vectors[key]));
      }
      r := Ok(None);
    }

    /**
     * `check_rate_limit`: increments the user's counter by one (a missing
     * counter counts from 0), sets the window expiry only when the counter
     * becomes 1, and allows the request iff the new count is at most the limit.
     */
    method CheckRateLimit(userId: string, limit: Option<int>, window: Option<int>)
      returns (r: Result<bool, string>)
      requires Valid()
      modifies this`counters, this`ttl
      ensures Valid()
      ensures r.Err? <==> !online
      ensures online ==> counters == old(counters)[RateLimitKey(userId) := CountOf(old(counters), RateLimitKey(userId)) + 1]
      ensures online ==> r.value == (CountOf(old(counters), RateLimitKey(userId)) + 1 <= limit.GetOr(settings.rateLimitRequests))
      ensures online && RateLimitKey(userId) !in old(counters) ==>
        ttl == old(ttl)[RateLimitKey(userId) := window.GetOr(settings.rateLimitWindow)]
      ensures online && RateLimitKey(userId) in old(counters) ==> ttl == old(ttl)
      ensures !online ==> counters == old(counters) && ttl == old(ttl)
    {
      if !online {
        return Err(ConnectionError);
      }
      var maxRequests := limit.GetOr(settings.rateLimitRequests);
      var windowSeconds := window.GetOr(settings.rateLimitWindow);
      var key := RateLimitKey(userId);
      var current := CountOf(counters, key) + 1;
      counters := counters[key := current];
      if current == 1 {
        ttl := ttl[key := windowSeconds];
      }
      r := Ok(current <= maxRequests);
    }
  }

  /** The list stored under a key, or the empty list when the key is missing. */
  function StoredOrEmpty(lists: map<string, seq<Message>>, key: string): seq<Message> {
    if key in lists then lists[key] else []
  }

  /** The counter stored under a key, 0 when it is missing (what `INCR` starts from). */
  function CountOf(counters: map<string, int>, key: string): int {
    if key in counters then counters[key] else 0
  }

  // ----- Properties of the conversation list -----

  /**
   * Adding a message with a positive bound makes it the newest stored
   * message and keeps the newest `maxMessages` of the old list and the
   * message, in order.
   */
  lemma AddKeepsNewest(stored: seq<Message>, message: Message, maxMessages: int)
    requires maxMessages >= 1
    ensures var r := Trimmed(stored + [message], maxMessages);
      && |r| == (if |stored| + 1 <= maxMessages then |stored| + 1 else maxMessages)
      && r[|r| - 1] == message
      && r == (stored + [message])[|stored| + 1 - |r|..]
  {
  }

  /** Reading with a truthy limit below the length gives exactly the newest `limit` messages. */
  lemma LimitedNewest(messages: seq<Message>, limit: int)
    requires 0 < limit < |messages|
    ensures Limited(messages, Some(limit)) == messages[|messages| - limit..]
  {
  }
}
