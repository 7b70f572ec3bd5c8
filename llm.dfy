/**
 * The configuration rules and request assembly of `LLMService`
 * (services/llm_service.py): provider, model, key and base-URL selection,
 * the Ollama `/v1` normalisation, the message list of
 * `generate_from_prompt`, the error wrapping of `generate` and the `None`
 * fallback of `get_llm_service`. The chat-completion endpoint itself is a
 * parameter: a function from the request to the reply text or an error.
 */
module Llm {
  import opened Common
  import opened Text

  const DefaultProvider: string := "ollama"
  const DefaultModel: string := "llama3.2"
  const DefaultTemperature: real := 0.7
  const DefaultMaxTokens: string := "2000"
  const DefaultOllamaUrl: string := "http://localhost:11434/v1"
  const DefaultOpenAiUrl: string := "https://api.openai.com/v1"
  const OllamaApiKey: string := "ollama"
  const MissingKeyError: string := "LLM_API_KEY is required for OpenAI provider"
  const MaxTokensError: string := "ValueError: invalid LLM_MAX_TOKENS"
  const GenerationErrorPrefix: string := "LLM generation error: "

  /**
   * The environment variables the service reads: `LLM_PROVIDER`,
   * `LLM_MODEL`, `LLM_API_KEY`, `LLM_BASE_URL`, `LLM_TEMPERATURE` (already
   * read as a number) and `LLM_MAX_TOKENS`; `None` when unset.
   */
  datatype Env = Env(
    provider: Option<string>,
    model: Option<string>,
    apiKey: Option<string>,
    baseUrl: Option<string>,
    temperature: Option<real>,
    maxTokens: Option<string>)

  /** The fields `__init__` leaves on the service. */
  datatype LlmService = LlmService(
    provider: string,
    modelName: string,
    apiKey: string,
    baseUrl: string,
    temperature: real,
    maxTokens: int)

  /** `str.lower()` on ASCII letters. */
  function LowerText(s: string): (r: string)
    ensures |r| == |s| && forall i :: 0 <= i < |s| ==> r[i] == Lower(s[i])
  {
    seq(|s|, i requires 0 <= i < |s| => Lower(s[i]))
  }

  /** The provider name: `LLM_PROVIDER` (default `ollama`) lower-cased. */
  function ProviderOf(env: Env): string {
    LowerText(env.provider.GetOr(DefaultProvider))
  }

  /** A variable that is set and non-empty (Python truthiness of the string). */
  predicate Given(v: Option<string>) {
    v.Some? && v.value != ""
  }

  // ----- The Ollama base URL -----

  /**
   * The Ollama base URL: `LLM_BASE_URL` or the local default, with `v1`
   * or `/v1` appended unless it already ends in `/v1`.
   */
  function NormalizeOllamaUrl(baseUrl: Option<string>): (url: string)
    ensures EndsWith(url, "/v1")
    ensures !Given(baseUrl) ==> url == DefaultOllamaUrl
    ensures Given(baseUrl) ==> StartsWith(url, baseUrl.value) && |url| <= |baseUrl.value| + 3
    ensures Given(baseUrl) && EndsWith(baseUrl.value, "/v1") ==> url == baseUrl.value
    ensures Given(baseUrl) && !EndsWith(baseUrl.value, "/v1") ==>
      url == baseUrl.value + (if EndsWith(baseUrl.value, "/") then "v1" else "/v1")
  {
    var u := if Given(baseUrl) then baseUrl.value else DefaultOllamaUrl;
    assert EndsWith(DefaultOllamaUrl, "/v1");
    if EndsWith(u, "/v1") then u
    else if EndsWith(u, "/") then
      assert (u + "v1")[|u| - 1..] == "/v1";
      StartsWithConcat(u, "v1");
      u + "v1"
    else
      EndsWithConcat(u, "/v1");
      StartsWithConcat(u, "/v1");
      u + "/v1"
  }

  /** Normalising an already normalised URL changes nothing. */
  lemma NormalizeIdempotent(baseUrl: Option<string>)
    ensures NormalizeOllamaUrl(Some(NormalizeOllamaUrl(baseUrl))) == NormalizeOllamaUrl(baseUrl)
  {
    var url := NormalizeOllamaUrl(baseUrl);
    assert Given(Some(url));
  }

  // ----- Construction -----

  /** The `LLM_MAX_TOKENS` text parsed, as `int(...)` does. */
  function MaxTokensOf(env: Env): Option<int> {
    ParseInt(env.maxTokens.GetOr(DefaultMaxTokens))
  }

  /** `__init__` succeeds: the token bound parses, and a provider other than Ollama has a key. */
  predicate Constructs(env: Env) {
    MaxTokensOf(env).Some? && (ProviderOf(env) == "ollama" || Given(env.apiKey))
  }

  /**
   * `LLMService.__init__`: reads the settings, then for Ollama normalises the
   * base URL and forces the key to `ollama`; for any other provider raises
   * `ValueError` without a key and defaults the URL to the OpenAI endpoint.
   */
  method NewLlmService(env: Env) returns (r: Result<LlmService, string>)
    ensures r.Ok? <==> Constructs(env)
    ensures r.Ok? ==> r.value.provider == ProviderOf(env) && r.value.modelName == env.model.GetOr(DefaultModel)
    ensures r.Ok? ==> r.value.temperature == env.temperature.GetOr(DefaultTemperature) && r.value.maxTokens == MaxTokensOf(env).value
    ensures r.Ok? && ProviderOf(env) == "ollama" ==>
      r.value.apiKey == OllamaApiKey && r.value.baseUrl == NormalizeOllamaUrl(env.baseUrl) && EndsWith(r.value.baseUrl, "/v1")
    ensures r.Ok? && ProviderOf(env) != "ollama" ==>
      r.value.apiKey == env.apiKey.value && r.value.baseUrl == (if Given(env.baseUrl) then env.baseUrl.value else DefaultOpenAiUrl)
    ensures r.Err? && MaxTokensOf(env).Some? ==> r.error == MissingKeyError
  {
    var provider := LowerText(env.provider.GetOr(DefaultProvider));
    var modelName := env.model.GetOr(DefaultModel);
    var apiKey := env.apiKey.GetOr("");
    var baseUrl := env.baseUrl.GetOr("");
    var temperature := env.temperature.GetOr(DefaultTemperature);
    var maxTokens := ParseInt(env.maxTokens.GetOr(DefaultMaxTokens));
    if maxTokens.None? {
      return Err(MaxTokensError);
    }
    if provider == "ollama" {
      baseUrl := NormalizeOllamaUrl(env.baseUrl);
      apiKey := OllamaApiKey;
    } else {
      if apiKey == "" {
        return Err(MissingKeyError);
      }
      if baseUrl == "" {
        baseUrl := DefaultOpenAiUrl;
      }
    }
    r := Ok(LlmService(provider, modelName, apiKey, baseUrl, temperature, maxTokens.value));
  }

  /** The configuration test of `get_llm_service`: a provider is named, a key is given, or the provider is Ollama. */
  predicate Requested(env: Env) {
    Given(env.provider) || Given(env.apiKey) || ProviderOf(env) == "ollama"
  }

  /** Whenever construction would succeed the configuration test passes, so the test never turns a working setup away. */
  lemma ConstructsIsRequested(env: Env)
    requires Constructs(env)
    ensures Requested(env)
  {
    if env.provider.None? {
      assert LowerText(DefaultProvider) == DefaultProvider;
    }
  }

  /** `get_llm_service`: the service, or `None` when the configuration test fails or construction raises. */
  method GetLlmService(env: Env) returns (service: Option<LlmService>)
    ensures service.Some? <==> Constructs(env)
    ensures service.Some? && ProviderOf(env) == "ollama" ==> service.value.apiKey == OllamaApiKey && EndsWith(service.value.baseUrl, "/v1")
    ensures service.Some? && ProviderOf(env) != "ollama" ==> service.value.apiKey != ""
  {
    if !Requested(env) {
      if Constructs(env) {
        ConstructsIsRequested(env);
      }
      return None;
    }
    var r := NewLlmService(env);
    if r.Err? {
      return None;
    }
    service := Some(r.value);
  }

  // ----- Requests -----

  /** What `chat.completions.create` is called with. */
  datatype Request = Request(model: string, messages: seq<Message>, temperature: real, maxTokens: int)

  /** The endpoint: the reply text for a request, or the error it raised. */
  type Endpoint = Request -> Result<string, string>

  /**
   * The request `generate` sends as written: `temperature or self.temperature`
   * and `max_tokens or self.max_tokens`, so a zero override counts as none.
   */
  function RequestAsWritten(s: LlmService, messages: seq<Message>, temperature: Option<real>, maxTokens: Option<int>): (q: Request)
    ensures q.model == s.modelName && q.messages == messages
    ensures q.temperature == s.temperature || (temperature.Some? && q.temperature == temperature.value != 0.0)
    ensures temperature.Some? && temperature.value != 0.0 ==> q.temperature == temperature.value
    ensures q.maxTokens == s.maxTokens || (maxTokens.Some? && q.maxTokens == maxTokens.value != 0)
    ensures maxTokens.Some? && maxTokens.value != 0 ==> q.maxTokens == maxTokens.value
  {
    Request(
      s.modelName,
      messages,
      if temperature.Some? && temperature.value != 0.0 then temperature.value else s.temperature,
      if maxTokens.Some? && maxTokens.value != 0 then maxTokens.value else s.maxTokens)
  }

  /** The classifier's `temperature=0.0` is replaced by the configured temperature in the request as written. */
  lemma ZeroTemperatureOverridden(s: LlmService, messages: seq<Message>)
    requires s.temperature != 0.0
    ensures RequestAsWritten(s, messages, Some(0.0), Some(256)).temperature == s.temperature
    ensures RequestAsWritten(s, messages, Some(0.0), Some(256)).temperature != 0.0
  {
  }

  /** The request with the temperature override tested against `None`, as the `Optional[float]` parameter intends. */
  function RequestFor(s: LlmService, messages: seq<Message>, temperature: Option<real>, maxTokens: Option<int>): (q: Request)
    ensures q.model == s.modelName && q.messages == messages
    ensures temperature.Some? ==> q.temperature == temperature.value
    ensures temperature.None? ==> q.temperature == s.temperature
    ensures q.maxTokens == RequestAsWritten(s, messages, temperature, maxTokens).maxTokens
    ensures (temperature.None? || temperature.value != 0.0) ==> q == RequestAsWritten(s, messages, temperature, maxTokens)
  {
    Request(
      s.modelName,
      messages,
      temperature.GetOr(s.temperature),
      if maxTokens.Some? && maxTokens.value != 0 then maxTokens.value else s.maxTokens)
  }

  /**
   * `generate`: the endpoint's reply, or its error re-raised as
   * `"LLM generation error: " + detail`.
   */
  function Generate(s: LlmService, messages: seq<Message>, temperature: Option<real>, maxTokens: Option<int>, endpoint: Endpoint): (r: Result<string, string>)
    ensures var reply := endpoint(RequestAsWritten(s, messages, temperature, maxTokens));
      && (r.Ok? <==> reply.Ok?)
      && (r.Ok? ==> r.value == reply.value)
      && (r.Err? ==> StartsWith(r.error, GenerationErrorPrefix) && EndsWith(r.error, reply.error))
  {
    match endpoint(RequestAsWritten(s, messages, temperature, maxTokens))
    case Ok(text) => Ok(text)
    case Err(detail) =>
      StartsWithConcat(GenerationErrorPrefix, detail);
      EndsWithConcat(GenerationErrorPrefix, detail);
      Err(GenerationErrorPrefix + detail)
  }

  /**
   * The messages `generate_from_prompt` sends: the system prompt first when
   * it is non-empty, then the history in order, then exactly one user message.
   */
  function PromptMessageList(systemPrompt: string, userPrompt: string, history: seq<Message>): (messages: seq<Message>)
    ensures var start := if systemPrompt != "" then 1 else 0;
      && |messages| == start + |history| + 1
      && (systemPrompt != "" ==> messages[0] == Message("system", systemPrompt))
      && (systemPrompt == "" ==> messages == history + [Message("user", userPrompt)])
      && messages[start..start + |history|] == history
      && messages[|messages| - 1] == Message("user", userPrompt)
  {
    var head := if systemPrompt != "" then [Message("system", systemPrompt)] else [];
    var messages := head + history + [Message("user", userPrompt)];
    assert messages[|head|..|head| + |history|] == history;
    messages
  }

  /** The `append`/`extend` steps of `generate_from_prompt`. */
  method FromPromptMessages(systemPrompt: string, userPrompt: string, history: seq<Message>) returns (messages: seq<Message>)
    ensures messages == PromptMessageList(systemPrompt, userPrompt, history)
  {
    messages := [];
    if systemPrompt != "" {
      messages := messages + [Message("system", systemPrompt)];
    }
    if |history| > 0 {
      messages := messages + history;
    }
    messages := messages + [Message("user", userPrompt)];
  }

  /** `generate_from_prompt`: assembles the messages and generates from them. */
  method GenerateFromPrompt(s: LlmService, systemPrompt: string, userPrompt: string, history: seq<Message>,
                            temperature: Option<real>, maxTokens: Option<int>, endpoint: Endpoint)
    returns (r: Result<string, string>)
    ensures r == Generate(s, PromptMessageList(systemPrompt, userPrompt, history), temperature, maxTokens, endpoint)
  {
    var messages := FromPromptMessages(systemPrompt, userPrompt, history);
    r := Generate(s, messages, temperature, maxTokens, endpoint);
  }
}
