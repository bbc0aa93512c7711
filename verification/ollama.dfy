/**
 * The Ollama provider client (`pkg/llm/ollama`): models are loaded one by
 * one when the client is created, chat requests are shaped for the
 * `/api/chat` endpoint, and embeddings are not offered. One HTTP exchange
 * (request construction, transport, status and body decoding) is an oracle.
 */
module Ollama {
  import opened Wrappers
  import opened GoStrings
  import opened Chat

  const DefaultBaseUrl: string := "http://localhost:11434"
  const CompletionApi: string := "/api/chat"
  /** Minutes the server keeps a model loaded after a request. */
  const KeepAliveMinDefault: int := 5

  datatype Client = Client(baseUrl: string)

  /** The request body; `format` is "" when the field is omitted. */
  datatype ChatCompletionRequest = ChatCompletionRequest(
    model: string, messages: seq<Message>, temperature: real, stream: bool, format: string, keepAlive: int)

  datatype ChatCompletionResponse = ChatCompletionResponse(model: string, message: Message, done: bool, doneReason: string)

  /**
   * One POST: the request could not be built, the transport failed, or the
   * server answered with a status and a body that decoded (Some) or not (None).
   */
  datatype HttpOutcome =
    | RequestInvalid(msg: string)
    | TransportFailed(msg: string)
    | Responded(status: int, body: Option<ChatCompletionResponse>)

  type Http = (string, ChatCompletionRequest) -> HttpOutcome

  /** The base URL: OLLAMA_BASE_URL when set, otherwise the local default. */
  function BaseUrl(env: string): (url: string)
    ensures env == "" ==> url == DefaultBaseUrl
    ensures env != "" ==> url == env
    ensures url != ""
  {
    if env == "" then DefaultBaseUrl else env
  }

  /**
   * The exchange both `loadModel` and `ChatCompletion` perform: errors for a
   * request that cannot be built, a failed transport, a status other than
   * 200 and an undecodable body, in that order; otherwise the decoded reply.
   */
  function Exchange(c: Client, req: ChatCompletionRequest, http: Http): (r: Result<ChatCompletionResponse>)
    ensures r.Ok? <==> exists resp :: http(c.baseUrl + CompletionApi, req) == Responded(200, Some(resp))
    ensures r.Ok? ==> http(c.baseUrl + CompletionApi, req) == Responded(200, Some(r.value))
    ensures (http(c.baseUrl + CompletionApi, req).Responded? && http(c.baseUrl + CompletionApi, req).status != 200) ==>
              r == Err("request failed with status code " + IntToString(http(c.baseUrl + CompletionApi, req).status))
  {
    match http(c.baseUrl + CompletionApi, req)
    case RequestInvalid(e) => Err(Wrap("failed to create HTTP request", e))
    case TransportFailed(e) => Err(Wrap("failed to call ollama completion API", e))
    case Responded(status, body) =>
      if status != 200 then Err("request failed with status code " + IntToString(status))
      else if body.None? then Err("failed to parse ChatCompletionResponse")
      else Ok(body.value)
  }

  /** A load request: no messages, only the model and the keep-alive. */
  function LoadRequest(model: string): ChatCompletionRequest {
    ChatCompletionRequest(model, [], 0.0, false, "", KeepAliveMinDefault)
  }

  /**
   * `loadModel`: succeeds only when the server answers 200 with a reply
   * whose done reason is "load".
   */
  function LoadModel(c: Client, model: string, http: Http): (r: Result<()>)
    ensures r.Ok? <==> exists resp :: http(c.baseUrl + CompletionApi, LoadRequest(model)) == Responded(200, Some(resp))
                                      && resp.doneReason == "load"
  {
    match Exchange(c, LoadRequest(model), http)
    case Err(e) => Err(e)
    case Ok(resp) =>
      if resp.doneReason != "load" then Err("model load failed with different done reason: " + resp.doneReason)
      else Ok(())
  }

  /**
   * `NewClient`: loads the models in order and stops at the first that
   * fails, naming it in the error. `loaded` is how many loaded before that.
   */
  method NewClient(env: string, models: seq<string>, http: Http) returns (r: Result<Client>, loaded: nat)
    ensures loaded <= |models|
    ensures forall i :: 0 <= i < loaded ==> LoadModel(Client(BaseUrl(env)), models[i], http).Ok?
    ensures r.Ok? <==> loaded == |models|
    ensures r.Ok? ==> r.value == Client(BaseUrl(env))
    ensures r.Err? ==> LoadModel(Client(BaseUrl(env)), models[loaded], http).Err?
                       && r.msg == Wrap("failed to load model " + models[loaded],
                                        LoadModel(Client(BaseUrl(env)), models[loaded], http).msg)
  {
    var client := Client(BaseUrl(env));
    loaded := 0;
    while loaded < |models|
      invariant loaded <= |models|
      invariant forall i :: 0 <= i < loaded ==> LoadModel(client, models[i], http).Ok?
    {
      var res := LoadModel(client, models[loaded], http);
      if res.Err? {
        r := Err(Wrap("failed to load model " + models[loaded], res.msg));
        return;
      }
      loaded := loaded + 1;
    }
    r := Ok(client);
  }

  /** The chat request: non-empty messages only, no streaming, JSON format iff asked, keep-alive 5. */
  function ChatRequestFor(model: string, systemMsg: string, userMsg: string, temperature: real, jsonSchema: bool)
    : (req: ChatCompletionRequest)
    ensures req.model == model && req.temperature == temperature
    ensures req.messages == BuildMessages(systemMsg, userMsg)
    ensures !req.stream && req.keepAlive == KeepAliveMinDefault
    ensures req.format == "json" <==> jsonSchema
    ensures !jsonSchema ==> req.format == ""
  {
    ChatCompletionRequest(model, BuildMessages(systemMsg, userMsg), temperature, false,
                          if jsonSchema then "json" else "", KeepAliveMinDefault)
  }

  /**
   * `ChatCompletion`: the reply's message content after a successful
   * exchange. `maxTokens` is accepted but never sent.
   */
  function ChatCompletion(c: Client, model: string, systemMsg: string, userMsg: string, temperature: real,
                          maxTokens: int, jsonSchema: bool, http: Http)
    : (r: Result<string>)
    ensures var out := http(c.baseUrl + CompletionApi, ChatRequestFor(model, systemMsg, userMsg, temperature, jsonSchema));
      && (r.Ok? <==> out.Responded? && out.status == 200 && out.body.Some?)
      && (r.Ok? ==> r.value == out.body.value.message.content)
      && (out.Responded? && out.status != 200 ==> r == Err("request failed with status code " + IntToString(out.status)))
  {
    match Exchange(c, ChatRequestFor(model, systemMsg, userMsg, temperature, jsonSchema), http)
    case Err(e) => Err(e)
    case Ok(resp) => Ok(resp.message.content)
  }

  /** The token limit has no effect on what is sent or returned. */
  lemma MaxTokensIgnored(c: Client, model: string, systemMsg: string, userMsg: string, temperature: real,
                         n1: int, n2: int, jsonSchema: bool, http: Http)
    ensures ChatCompletion(c, model, systemMsg, userMsg, temperature, n1, jsonSchema, http)
         == ChatCompletion(c, model, systemMsg, userMsg, temperature, n2, jsonSchema, http)
  {
  }

  /** `CreateEmbeddings`: always an error, never any vectors. */
  function CreateEmbeddings(c: Client, model: string, texts: seq<string>): (r: Result<seq<seq<real>>>)
    ensures r.Err? && r.msg == "not implemented"
  {
    Err("not implemented")
  }
}
