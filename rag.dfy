/**
 * The orchestration of one question (`RAGService`, services/rag_service.py):
 * retrieval from the vector store with the query-embedding cache in front of
 * the encoder, answer generation with its context-only fallback, and the
 * classifier step that decides whether retrieval runs at all.
 *
 * The encoder, the vector store, the chat-completion endpoint and the JSON
 * decoding of the classifier reply are collaborators passed in a `Service`
 * value; `hash(query)` is a number passed alongside the query.
 */
module Rag {
  import opened Common
  import opened Text
  import opened Cache
  import opened Llm
  import opened Prompt
  import opened ResponseParser

  const IndexError: string := "IndexError: list index out of range"

  /** One retrieved item: the document, its metadata and its distance. */
  datatype Context = Context(content: string, metadata: map<string, string>, distance: real)

  /** The store's answer for one query: `documents[0]`, `metadatas[0]` and `distances[0]`. */
  datatype QueryResult = QueryResult(documents: seq<string>, metadatas: seq<map<string, string>>, distances: seq<real>)

  /** `get_collection(name).query(...)`: the store's result, or the error it raised (a missing collection, say). */
  type Store = (string, Vector, int) -> Result<QueryResult, string>

  /** What `json.loads` and `bool(...)` make of the classifier reply. */
  datatype Classification = Malformed | Flags(needsContext: bool, isBookRelated: bool)

  /** The collaborators of `RAGService`; `llm` is `None` when no LLM service is configured. */
  datatype Service = Service(
    llm: Option<LlmService>,
    endpoint: Endpoint,
    encode: string -> Vector,
    search: Store,
    readClassification: string -> Classification)

  /** The dictionary `decide_and_generate` returns; the two flags are absent without an LLM. */
  datatype RagResult = RagResult(
    response: string,
    options: seq<string>,
    usedContext: bool,
    contexts: seq<Context>,
    needsContext: Option<bool>,
    isBookRelated: Option<bool>)

  /** The shape of `build_prompt`: context text, query, whether options are requested, previous questions. */
  type PromptBuilder = (string, string, bool, seq<string>) -> seq<Message>

  /** The contents of the contexts, in order. */
  function Contents(contexts: seq<Context>): (r: seq<string>)
    ensures |r| == |contexts| && forall i :: 0 <= i < |r| ==> r[i] == contexts[i].content
  {
    seq(|contexts|, i requires 0 <= i < |contexts| => contexts[i].content)
  }

  // ----- Retrieval -----

  /** Every document has a metadata entry and a distance at its index. */
  predicate Aligned(res: QueryResult) {
    |res.metadatas| >= |res.documents| && |res.distances| >= |res.documents|
  }

  /** The contexts the retriever builds from a store result. */
  function Paired(res: QueryResult): Result<seq<Context>, string> {
    if Aligned(res) then
      Ok(seq(|res.documents|, i requires 0 <= i < |res.documents| => Context(res.documents[i], res.metadatas[i], res.distances[i])))
    else
      Err(IndexError)
  }

  /**
   * The loop of `retrieve_context`: one context per returned document, in the
   * store's order, pairing metadata and distance by index; an index past the
   * end of either list raises.
   */
  method CollectContexts(res: QueryResult) returns (r: Result<seq<Context>, string>)
    ensures r == Paired(res)
    ensures r.Ok? <==> Aligned(res)
    ensures r.Ok? ==> |r.value| == |res.documents|
    ensures r.Ok? ==> forall i :: 0 <= i < |res.documents| ==> r.value[i] == Context(res.documents[i], res.metadatas[i], res.distances[i])
  {
    var contexts: seq<Context> := [];
    var i := 0;
    while i < |res.documents|
      invariant 0 <= i <= |res.documents|
      invariant i <= |res.metadatas| && i <= |res.distances|
      invariant |contexts| == i
      invariant forall j :: 0 <= j < i ==> contexts[j] == Context(res.documents[j], res.metadatas[j], res.distances[j])
    {
      if i >= |res.metadatas| || i >= |res.distances| {
        return Err(IndexError);
      }
      contexts := contexts + [Context(res.documents[i], res.metadatas[i], res.distances[i])];
      i := i + 1;
    }
    assert contexts == Paired(res).value;
    r := Ok(contexts);
  }

  /** The vector cached for the query, as the retriever reads it; a connection error reads as a miss. */
  function CachedVector(redis: RedisConnection?, queryHash: int): Option<Vector>
    reads redis
  {
    if redis != null && redis.online && EmbeddingKey(queryHash) in redis.vectors then
      Some(redis.vectors[EmbeddingKey(queryHash)])
    else
      None
  }

  /** A cached vector the retriever uses: present and non-empty (an empty list is falsy). */
  predicate Hit(cached: Option<Vector>) {
    cached.Some? && cached.value != []
  }

  /** The query vector: the cached one on a hit, otherwise the encoder's. */
  function QueryVector(svc: Service, query: string, cached: Option<Vector>): Vector {
    if Hit(cached) then cached.value else svc.encode(query)
  }

  /** The outcome of `retrieve_context` given what the cache holds: the store's error, or the paired contexts. */
  function Retrieval(svc: Service, query: string, collectionName: string, topK: int, cached: Option<Vector>): Result<seq<Context>, string> {
    match svc.search(collectionName, QueryVector(svc, query, cached), topK)
    case Err(e) => Err(e)
    case Ok(res) => Paired(res)
  }

  /**
   * `retrieve_context`: reads the cached query vector, encodes and caches on a
   * miss (cache errors are swallowed), queries the store (its errors are not).
   */
  method RetrieveContext(svc: Service, query: string, queryHash: int, collectionName: string, topK: int, redis: RedisConnection?)
    returns (r: Result<seq<Context>, string>)
    requires redis != null ==> redis.Valid()
    modifies redis
    ensures r == Retrieval(svc, query, collectionName, topK, old(CachedVector(redis, queryHash)))
    ensures redis != null ==> redis.Valid() && redis.online == old(redis.online)
    ensures redis != null ==> redis.lists == old(redis.lists) && redis.counters == old(redis.counters)
    ensures redis != null && old(redis.online) && !Hit(old(CachedVector(redis, queryHash))) ==>
      redis.vectors == old(redis.vectors)[EmbeddingKey(queryHash) := svc.encode(query)] &&
      redis.ttl == old(redis.ttl)[EmbeddingKey(queryHash) := redis.settings.embeddingTtl]
    ensures redis != null && (!old(redis.online) || Hit(old(CachedVector(redis, queryHash)))) ==>
      redis.vectors == old(redis.vectors) && redis.ttl == old(redis.ttl)
  {
    var cached: Option<Vector> := None;
    if redis != null {
      var read := redis.GetQueryEmbedding(queryHash);
      if read.Ok? {
        cached := read.value;
      }
    }
    var vector: Vector;
    if cached.Some? && cached.value != [] {
      vector := cached.value;
    } else {
      vector := svc.encode(query);
      if redis != null {
        var saved := redis.CacheQueryEmbedding(queryHash, vector, None);
      }
    }
    var found := svc.search(collectionName, vector, topK);
    if found.Err? {
      return Err(found.error);
    }
    r := CollectContexts(found.value);
  }

  // ----- Generation -----

  /**
   * What `generate_response` returns: without an LLM, or when generation
   * raises, the fallback text over the numbered contexts and no options;
   * otherwise the parsed reply. The prompt builder is a parameter so that the
   * properties below hold whatever the prompt texts are; `GenerateResponse`
   * supplies `PromptMessages`.
   */
  function Answer(buildPrompt: PromptBuilder, svc: Service, query: string, contexts: seq<Context>, previousQueries: seq<string>): (p: Parsed)
    ensures CleanOptions(p.options)
    ensures p.options != [] ==> svc.llm.Some?
    ensures svc.llm.None? ==> p == Parsed(FallbackResponse(ContextText(Contents(contexts))), [])
    ensures svc.llm.Some? ==>
      var reply := Generate(svc.llm.value, buildPrompt(ContextText(Contents(contexts)), query, true, previousQueries), Some(0.1), Some(1024), svc.endpoint);
      && (reply.Ok? ==> p == Parsed(ResponseText(reply.value), OptionsText(reply.value)))
      && (reply.Err? ==> p == Parsed(FallbackResponse(ContextText(Contents(contexts))), []))
  {
    var contextText := ContextText(Contents(contexts));
    if svc.llm.None? then
      Parsed(FallbackResponse(contextText), [])
    else
      var messages := buildPrompt(contextText, query, true, previousQueries);
      match Generate(svc.llm.value, messages, Some(0.1), Some(1024), svc.endpoint)
      case Ok(raw) =>
        OptionsClean(raw);
        Parsed(ResponseText(raw), OptionsText(raw))
      case Err(_) => Parsed(FallbackResponse(contextText), [])
  }

  /** A generation failure is never visible to the caller: it turns into the fallback text and no options. */
  lemma GenerationFailureFallsBack(buildPrompt: PromptBuilder, svc: Service, query: string, contexts: seq<Context>, previousQueries: seq<string>)
    requires svc.llm.Some?
    requires Generate(svc.llm.value, buildPrompt(ContextText(Contents(contexts)), query, true, previousQueries), Some(0.1), Some(1024), svc.endpoint).Err?
    ensures Answer(buildPrompt, svc, query, contexts, previousQueries) == Parsed(FallbackResponse(ContextText(Contents(contexts))), [])
    ensures StartsWith(Answer(buildPrompt, svc, query, contexts, previousQueries).response, FallbackHead)
    ensures EndsWith(Answer(buildPrompt, svc, query, contexts, previousQueries).response, FallbackTail)
  {
  }

  /** `generate_response`: builds the prompt with the option section, generates at temperature 0.1 within 1024 tokens, parses. */
  method GenerateResponse(svc: Service, query: string, contexts: seq<Context>, previousQueries: seq<string>) returns (result: Parsed)
    ensures result == Answer(PromptMessages, svc, query, contexts, previousQueries)
  {
    var contextText := ContextText(Contents(contexts));
    if svc.llm.Some? {
      var messages := BuildPrompt(contextText, query, true, previousQueries);
      var reply := Generate(svc.llm.value, messages, Some(0.1), Some(1024), svc.endpoint);
      if reply.Ok? {
        result := ParseResponse(reply.value);
        return;
      }
    }
    result := Parsed(FallbackResponse(contextText), []);
  }

  // ----- Classification and the decision -----

  const ClassifierSystem: string :=
    "You are a classifier that decides how " + "to route a user query.\n"
    + "- The knowledge base ONLY contains " + "data about books.\n"
    + "- Your task is to answer STRICTLY in " + "JSON with the following keys:\n"
    + "  {\n"
    + "    \"needs_context\": true/false,\n"
    + "    \"is_book_related\": true/false,\n"
    + "    \"reason\": \"short explanation " + "in Vietnamese\"\n"
    + "  }\n"
    + "- Do not add any extra text outside " + "the JSON.\n"

  const ClassifierQuestions: string :=
    "Hãy phân tích xem:\n"
    + "1) Câu hỏi này có LIÊN QUAN đến sách " + "/ nội dung sách không?\n"
    + "2) Có CẦN sử dụng kiến thức chi tiết " + "từ kho sách (knowledge base) để trả " + "lời tốt không?\n"

  /** The two classifier messages: the routing instructions, then the query and the two questions. */
  function ClassificationMessages(query: string): seq<Message> {
    [Message("system", ClassifierSystem), Message("user", "User query:\n" + query + "\n\n" + ClassifierQuestions)]
  }

  /** The classifier call: temperature 0.0 and at most 256 tokens; its failure is not caught. */
  function Classify(settings: LlmService, endpoint: Endpoint, query: string): Result<string, string> {
    Generate(settings, ClassificationMessages(query), Some(0.0), Some(256), endpoint)
  }

  /**
   * The classifier's request as sent: its 0.0 override is falsy, so the
   * configured temperature goes out, together with the 256-token cap.
   */
  lemma ClassifierRequest(settings: LlmService, endpoint: Endpoint, query: string)
    ensures var sent := Request(settings.modelName, ClassificationMessages(query), settings.temperature, 256);
      && (Classify(settings, endpoint, query).Ok? <==> endpoint(sent).Ok?)
      && (Classify(settings, endpoint, query).Ok? ==> Classify(settings, endpoint, query).value == endpoint(sent).value)
  {
    assert RequestAsWritten(settings, ClassificationMessages(query), Some(0.0), Some(256))
      == Request(settings.modelName, ClassificationMessages(query), settings.temperature, 256);
  }

  /** The two flags after the classifier reply is read; an unreadable reply leaves both true. */
  function Routing(c: Classification): (bool, bool) {
    match c
    case Malformed => (true, true)
    case Flags(n, b) => (n, b)
  }

  /**
   * The outcome of `decide_and_generate` given what the embedding cache holds.
   * Without an LLM: retrieval, the fallback text, `used_context` true.
   * With an LLM: the classifier, whose failure propagates, then `Routed`.
   */
  function Decision(buildPrompt: PromptBuilder, svc: Service, query: string, collectionName: string, topK: int, previousQueries: seq<string>, cached: Option<Vector>)
    : Result<RagResult, string>
  {
    if svc.llm.None? then
      match Retrieval(svc, query, collectionName, topK, cached)
      case Err(e) => Err(e)
      case Ok(contexts) => Ok(RagResult(FallbackResponse(ContextText(Contents(contexts))), [], true, contexts, None, None))
    else
      match Classify(svc.llm.value, svc.endpoint, query)
      case Err(e) => Err(e)
      case Ok(raw) => Routed(buildPrompt, svc, query, collectionName, topK, previousQueries, cached, Routing(svc.readClassification(raw)))
  }

  /** After classification: retrieval only when both flags hold, the generated answer, and `used_context` from the context list. */
  function Routed(buildPrompt: PromptBuilder, svc: Service, query: string, collectionName: string, topK: int, previousQueries: seq<string>,
                  cached: Option<Vector>, flags: (bool, bool)): Result<RagResult, string>
  {
    var retrieved := if flags.0 && flags.1 then Retrieval(svc, query, collectionName, topK, cached) else Ok([]);
    match retrieved
    case Err(e) => Err(e)
    case Ok(contexts) =>
      var answer := Answer(buildPrompt, svc, query, contexts, previousQueries);
      Ok(RagResult(answer.response, answer.options, |contexts| > 0, contexts, Some(flags.0), Some(flags.1)))
  }

  /** Whether `decide_and_generate` reaches the retriever. */
  predicate Retrieves(svc: Service, query: string) {
    svc.llm.None? ||
    (Classify(svc.llm.value, svc.endpoint, query).Ok? &&
     var (needs, book) := Routing(svc.readClassification(Classify(svc.llm.value, svc.endpoint, query).value));
     needs && book)
  }

  /**
   * `decide_and_generate`: the steps in order, with `needs_context` and
   * `is_book_related` reassigned as the source does.
   */
  method DecideAndGenerate(svc: Service, query: string, queryHash: int, collectionName: string, topK: int,
                           redis: RedisConnection?, previousQueries: seq<string>)
    returns (r: Result<RagResult, string>)
    requires redis != null ==> redis.Valid()
    modifies redis
    ensures r == Decision(PromptMessages, svc, query, collectionName, topK, previousQueries, old(CachedVector(redis, queryHash)))
    ensures redis != null ==> redis.Valid() && redis.online == old(redis.online)
    ensures redis != null ==> redis.lists == old(redis.lists) && redis.counters == old(redis.counters)
    ensures redis != null && old(redis.online) && Retrieves(svc, query) && !Hit(old(CachedVector(redis, queryHash))) ==>
      redis.vectors == old(redis.vectors)[EmbeddingKey(queryHash) := svc.encode(query)]
    ensures redis != null && !(old(redis.online) && Retrieves(svc, query) && !Hit(old(CachedVector(redis, queryHash)))) ==>
      redis.vectors == old(redis.vectors)
  {
    if svc.llm.None? {
      var retrieved := RetrieveContext(svc, query, queryHash, collectionName, topK, redis);
      if retrieved.Err? {
        return Err(retrieved.error);
      }
      var contexts := retrieved.value;
      var contextText := ContextText(Contents(contexts));
      var response := FallbackResponse(contextText);
      return Ok(RagResult(response, [], true, contexts, None, None));
    }
    var rawClf := Generate(svc.llm.value, ClassificationMessages(query), Some(0.0), Some(256), svc.endpoint);
    if rawClf.Err? {
      return Err(rawClf.error);
    }
    var needsContext := true;
    var isBookRelated := true;
    var clfData := svc.readClassification(rawClf.value);
    if clfData.Flags? {
      needsContext := clfData.needsContext;
      isBookRelated := clfData.isBookRelated;
    }
    r := RouteAndGenerate(svc, query, queryHash, collectionName, topK, redis, previousQueries, needsContext, isBookRelated);
  }

  /** The second half of `decide_and_generate`: `contexts` stays empty unless both flags hold. */
  method RouteAndGenerate(svc: Service, query: string, queryHash: int, collectionName: string, topK: int,
                          redis: RedisConnection?, previousQueries: seq<string>, needsContext: bool, isBookRelated: bool)
    returns (r: Result<RagResult, string>)
    requires redis != null ==> redis.Valid()
    modifies redis
    ensures r == Routed(PromptMessages, svc, query, collectionName, topK, previousQueries, old(CachedVector(redis, queryHash)), (needsContext, isBookRelated))
    ensures redis != null ==> redis.Valid() && redis.online == old(redis.online)
    ensures redis != null ==> redis.lists == old(redis.lists) && redis.counters == old(redis.counters)
    ensures redis != null && old(redis.online) && needsContext && isBookRelated && !Hit(old(CachedVector(redis, queryHash))) ==>
      redis.vectors == old(redis.vectors)[EmbeddingKey(queryHash) := svc.encode(query)]
    ensures redis != null && !(old(redis.online) && needsContext && isBookRelated && !Hit(old(CachedVector(redis, queryHash)))) ==>
      redis.vectors == old(redis.vectors)
  {
    var contexts: seq<Context> := [];
    if needsContext && isBookRelated {
      var retrieved := RetrieveContext(svc, query, queryHash, collectionName, topK, redis);
      if retrieved.Err? {
        return Err(retrieved.error);
      }
      contexts := retrieved.value;
    }
    var result := GenerateResponse(svc, query, contexts, previousQueries);
    r := Ok(RagResult(result.response, result.options, |contexts| > 0, contexts, Some(needsContext), Some(isBookRelated)));
  }

  // ----- Properties of the decision -----

  /** Without an LLM, retrieval always runs, its error propagates, and the answer is the fallback text with `used_context` true. */
  lemma WithoutLlmAlwaysRetrieves(buildPrompt: PromptBuilder, svc: Service, query: string, collectionName: string, topK: int, previousQueries: seq<string>, cached: Option<Vector>)
    requires svc.llm.None?
    ensures var d := Decision(buildPrompt, svc, query, collectionName, topK, previousQueries, cached);
      var ret := Retrieval(svc, query, collectionName, topK, cached);
      && (d.Ok? <==> ret.Ok?)
      && (d.Ok? ==> d.value.usedContext && d.value.options == [] && d.value.contexts == ret.value)
      && (d.Ok? ==> d.value.response == FallbackResponse(ContextText(Contents(d.value.contexts))))
      && (d.Ok? ==> StartsWith(d.value.response, FallbackHead) && EndsWith(d.value.response, FallbackTail))
      && (d.Err? ==> d.error == ret.error)
  {
  }

  /** A failing classifier call fails the whole step with the wrapped generation error; nothing is retrieved. */
  lemma ClassifierErrorPropagates(buildPrompt: PromptBuilder, svc: Service, query: string, collectionName: string, topK: int, previousQueries: seq<string>, cached: Option<Vector>)
    requires svc.llm.Some? && Classify(svc.llm.value, svc.endpoint, query).Err?
    ensures Decision(buildPrompt, svc, query, collectionName, topK, previousQueries, cached).Err?
    ensures StartsWith(Decision(buildPrompt, svc, query, collectionName, topK, previousQueries, cached).error, GenerationErrorPrefix)
    ensures !Retrieves(svc, query)
  {
  }

  /** An unreadable classifier reply fails open: both flags are true and retrieval runs. */
  lemma ClassificationFailsOpen(buildPrompt: PromptBuilder, svc: Service, query: string, collectionName: string, topK: int, previousQueries: seq<string>, cached: Option<Vector>)
    requires svc.llm.Some? && Classify(svc.llm.value, svc.endpoint, query).Ok?
    requires svc.readClassification(Classify(svc.llm.value, svc.endpoint, query).value) == Malformed
    ensures Retrieves(svc, query)
    ensures var d := Decision(buildPrompt, svc, query, collectionName, topK, previousQueries, cached);
      d.Ok? ==> d.value.needsContext == Some(true) && d.value.isBookRelated == Some(true)
  {
  }

  /**
   * With an LLM and a classifier reply, retrieval runs iff both flags are true;
   * otherwise the step succeeds with no contexts; and `used_context` is
   * exactly whether any context came back.
   */
  lemma RetrievalGatedOnFlags(buildPrompt: PromptBuilder, svc: Service, query: string, collectionName: string, topK: int, previousQueries: seq<string>, cached: Option<Vector>)
    requires svc.llm.Some? && Classify(svc.llm.value, svc.endpoint, query).Ok?
    ensures var flags := Routing(svc.readClassification(Classify(svc.llm.value, svc.endpoint, query).value));
      Retrieves(svc, query) <==> flags.0 && flags.1
    ensures var d := Decision(buildPrompt, svc, query, collectionName, topK, previousQueries, cached);
      !Retrieves(svc, query) ==> d.Ok? && d.value.contexts == [] && !d.value.usedContext
    ensures var d := Decision(buildPrompt, svc, query, collectionName, topK, previousQueries, cached);
      var ret := Retrieval(svc, query, collectionName, topK, cached);
      Retrieves(svc, query) ==> (d.Ok? <==> ret.Ok?) && (d.Ok? ==> d.value.contexts == ret.value)
    ensures var d := Decision(buildPrompt, svc, query, collectionName, topK, previousQueries, cached);
      d.Ok? ==> d.value.usedContext == (|d.value.contexts| > 0)
  {
  }

  /** Every option the step returns is a non-empty, trimmed, single line, and options only come from an LLM reply. */
  lemma DecisionOptionsClean(buildPrompt: PromptBuilder, svc: Service, query: string, collectionName: string, topK: int, previousQueries: seq<string>, cached: Option<Vector>)
    ensures var d := Decision(buildPrompt, svc, query, collectionName, topK, previousQueries, cached);
      d.Ok? ==> CleanOptions(d.value.options) &&
                (d.value.options != [] ==> svc.llm.Some?)
  {
  }

  /** A cache hit means the encoder is never consulted: the result does not depend on it. */
  lemma HitSkipsEncoder(svc: Service, encode: string -> Vector, query: string, collectionName: string, topK: int, cached: Option<Vector>)
    requires Hit(cached)
    ensures Retrieval(svc.(encode := encode), query, collectionName, topK, cached) == Retrieval(svc, query, collectionName, topK, cached)
  {
  }
}
