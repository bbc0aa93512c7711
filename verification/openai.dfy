/**
 * The OpenAI provider client (`pkg/llm/openai`): a chat completion and an
 * embeddings call, each charged to the model it names in a token map that
 * gains an entry the first time a model is used. The endpoint is an oracle.
 */
module OpenAi {
  import opened Wrappers
  import opened Usage
  import opened Chat

  const EnvOpenAiApiKey: string := "OPENAI_API_KEY"

  datatype Client = Client(apiKey: string, tokenUsed: UsageMap)

  /** The chat request as sent: `jsonFormat` has no field here because it is not used. */
  datatype ChatRequest = ChatRequest(model: string, messages: seq<Message>, temperature: real, maxTokens: int)

  /** `NewClient` given OPENAI_API_KEY: an error when empty, otherwise no model charged yet. */
  function NewClient(apiKey: string): (r: Result<Client>)
    ensures r.Err? <==> apiKey == ""
    ensures r.Err? ==> r.msg == EnvOpenAiApiKey + " environment variable is not set"
    ensures r.Ok? ==> r.value.apiKey == apiKey && r.value.tokenUsed == map[]
    ensures r.Ok? ==> forall m :: Lookup(r.value.tokenUsed, m) == Zero
  {
    if apiKey == "" then Err(EnvOpenAiApiKey + " environment variable is not set")
    else Ok(Client(apiKey, map[]))
  }

  /** `updateTokenUsed`: add to the model's entry, creating it at zero first. */
  function UpdateTokenUsed(c: Client, model: string, used: TokenUsed): (c': Client)
    ensures c'.apiKey == c.apiKey
    ensures c'.tokenUsed.Keys == c.tokenUsed.Keys + {model}
    ensures Lookup(c'.tokenUsed, model) == Lookup(c.tokenUsed, model).Add(used)
    ensures forall m :: m != model ==> Lookup(c'.tokenUsed, m) == Lookup(c.tokenUsed, m)
  {
    c.(tokenUsed := Update(c.tokenUsed, model, used))
  }

  function ChatRequestFor(model: string, systemMsg: string, userMsg: string, temperature: real, maxTokens: int)
    : ChatRequest
  {
    ChatRequest(model, BuildMessages(systemMsg, userMsg), temperature, maxTokens)
  }

  /**
   * `ChatCompletion`: sends a system message iff `systemMsg` is non-empty
   * and a user message iff `userMsg` is, system first. A failed call is
   * wrapped and not charged; a completed one is charged to `model`.
   */
  function ChatCompletion(c: Client, model: string, systemMsg: string, userMsg: string, temperature: real,
                          maxTokens: int, jsonFormat: bool, chat: ChatRequest -> ChatResponse)
    : (r: (Result<string>, Client))
    ensures var req := chat(ChatRequestFor(model, systemMsg, userMsg, temperature, maxTokens));
      && (req.ChatFailed? ==> r == (Err(Wrap("failed to call OpenAI API", req.msg)), c))
      && (req.Completion? ==> r == (Ok(req.content), UpdateTokenUsed(c, model, req.usage)))
  {
    match chat(ChatRequestFor(model, systemMsg, userMsg, temperature, maxTokens))
    case ChatFailed(e) => (Err(Wrap("failed to call OpenAI API", e)), c)
    case Completion(content, used) => (Ok(content), UpdateTokenUsed(c, model, used))
  }

  /** The messages sent carry exactly the non-empty texts, in system-then-user order. */
  lemma ChatMessagesAreTheNonEmptyTexts(model: string, systemMsg: string, userMsg: string, temperature: real,
                                        maxTokens: int)
    ensures var ms := ChatRequestFor(model, systemMsg, userMsg, temperature, maxTokens).messages;
      && (forall m :: m in ms ==> m.content != "" && (m.role == RoleSystem || m.role == RoleUser))
      && (|ms| == 2 ==> ms == [Message(RoleSystem, systemMsg), Message(RoleUser, userMsg)])
      && (systemMsg == "" && userMsg == "" ==> ms == [])
  {
  }

  /** The JSON-format flag changes nothing: the request and the outcome are the same either way. */
  lemma JsonFormatIgnored(c: Client, model: string, systemMsg: string, userMsg: string, temperature: real,
                          maxTokens: int, chat: ChatRequest -> ChatResponse)
    ensures ChatCompletion(c, model, systemMsg, userMsg, temperature, maxTokens, true, chat)
         == ChatCompletion(c, model, systemMsg, userMsg, temperature, maxTokens, false, chat)
  {
  }

  /**
   * `CreateEmbeddings`: the endpoint's error is passed through uncharged; an
   * answer is charged (prompt and completion tokens) to `model` before the
   * vector count is checked; on success one vector per text, in response
   * order.
   */
  function CreateEmbeddings(c: Client, model: string, texts: seq<string>,
                            embed: (string, seq<string>) -> EmbeddingResponse)
    : (r: (Result<seq<seq<real>>>, Client))
    ensures r.0 == EmbeddingResult(texts, embed(model, texts))
    ensures r.0.Ok? ==> |r.0.value| == |texts|
    ensures embed(model, texts).EmbeddingFailed? ==> r.1 == c
    ensures embed(model, texts).Embeddings? ==> r.1 == UpdateTokenUsed(c, model, embed(model, texts).usage)
  {
    var resp := embed(model, texts);
    match resp
    case EmbeddingFailed(e) => (Err(e), c)
    case Embeddings(data, used) =>
      var c' := UpdateTokenUsed(c, model, used);
      if |data| != |texts| then (Err("number of embeddings returned does not match number of texts"), c')
      else (Ok(data), c')
  }

  /** With non-negative usage reports, no model's count ever goes down, whatever the calls return. */
  lemma CountsNeverDecrease(c: Client, model: string, systemMsg: string, userMsg: string, temperature: real,
                            maxTokens: int, jsonFormat: bool, chat: ChatRequest -> ChatResponse,
                            texts: seq<string>, embed: (string, seq<string>) -> EmbeddingResponse, m: string)
    requires forall req :: chat(req).Completion? ==> NonNegative(chat(req).usage)
    requires forall mo, ts :: embed(mo, ts).Embeddings? ==> NonNegative(embed(mo, ts).usage)
    ensures var c1 := ChatCompletion(c, model, systemMsg, userMsg, temperature, maxTokens, jsonFormat, chat).1;
      && Lookup(c1.tokenUsed, m).prompt >= Lookup(c.tokenUsed, m).prompt
      && Lookup(c1.tokenUsed, m).completion >= Lookup(c.tokenUsed, m).completion
    ensures var c2 := CreateEmbeddings(c, model, texts, embed).1;
      && Lookup(c2.tokenUsed, m).prompt >= Lookup(c.tokenUsed, m).prompt
      && Lookup(c2.tokenUsed, m).completion >= Lookup(c.tokenUsed, m).completion
  {
  }
}
