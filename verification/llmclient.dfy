/**
 * The generic LLM client (`pkg/llm`): per-model token accounting, article
 * summaries, category matching by chat completion and embeddings with
 * chunking of long texts. The cloud endpoint is an oracle: a function from
 * the request to what the endpoint answered.
 */
module LlmClient {
  import opened Wrappers
  import opened GoStrings
  import opened Types
  import opened Usage
  import opened Chat
  import opened Embeddings

  /** Longest text (in bytes) sent to the embedding endpoint in one piece. */
  const EmbeddingsMaxTextLength: int := 8000
  /** Longest summary input (in bytes). */
  const CompletionMaxTextLength: int := 2000

  const ClassificationMaxTokens: int := 2000
  const SummaryMaxTokens: int := 500

  const ClassificationModel: string := "gpt-4o-mini"
  const SummaryModel: string := "gpt-4o"
  const AdaEmbeddingModel: string := "text-embedding-ada-002"
  const EmbeddingModel: string := "text-embedding-3-small"

  /** Window and overlap, in runes, for texts too long to embed whole. */
  const EmbeddingsChunkSize: int := 1000
  const EmbeddingsOverlap: int := 200

  const EnvOpenAiApiKey: string := "OPENAI_API_KEY"

  /** The API key and the running token totals per model. */
  datatype Client = Client(apiKey: string, tokenUsed: UsageMap)

  /** A chat completion request as sent to the endpoint. */
  datatype CompletionRequest = CompletionRequest(model: string, messages: seq<Message>, temperature: real, maxTokens: int)

  /** The four models the client accounts for. */
  const TrackedModels: set<string> := {ClassificationModel, SummaryModel, AdaEmbeddingModel, EmbeddingModel}

  // ---------------------------------------------------------------------
  // NewClient
  // ---------------------------------------------------------------------

  /**
   * `NewClient` given the value of OPENAI_API_KEY: an error when it is unset
   * or empty; otherwise a client that tracks the four models, all at zero.
   */
  function NewClient(apiKey: string): (r: Result<Client>)
    ensures r.Err? <==> apiKey == ""
    ensures r.Err? ==> r.msg == EnvOpenAiApiKey + " environment variable is not set"
    ensures r.Ok? ==> r.value.apiKey == apiKey && r.value.tokenUsed.Keys == TrackedModels
  {
    if apiKey == "" then Err(EnvOpenAiApiKey + " environment variable is not set")
    else Ok(Client(apiKey, map[ClassificationModel := Zero, SummaryModel := Zero,
                               AdaEmbeddingModel := Zero, EmbeddingModel := Zero]))
  }

  /** A fresh client has used no tokens on any model, tracked or not. */
  lemma NewClientStartsAtZero(apiKey: string, model: string)
    requires apiKey != ""
    ensures Lookup(NewClient(apiKey).value.tokenUsed, model) == Zero
  {
  }

  /** Charge `used` to `model`; other models and the key are untouched. */
  function Charge(c: Client, model: string, used: TokenUsed): (c': Client)
    ensures c'.apiKey == c.apiKey
    ensures Lookup(c'.tokenUsed, model) == Lookup(c.tokenUsed, model).Add(used)
    ensures forall m :: m != model ==> Lookup(c'.tokenUsed, m) == Lookup(c.tokenUsed, m)
  {
    c.(tokenUsed := Update(c.tokenUsed, model, used))
  }

  // ---------------------------------------------------------------------
  // Summarize
  // ---------------------------------------------------------------------

  /** The user message of a summary request. */
  function SummaryInput(a: Article): string {
    "Title: " + a.title + "\nContent: " + a.content + "\nCategories: " + FormatStringSlice(a.categories)
  }

  /** The summary request; the fixed instruction text is a parameter. */
  function SummaryRequest(a: Article, instructions: string): CompletionRequest {
    CompletionRequest(SummaryModel, [Message(RoleSystem, instructions), Message(RoleUser, SummaryInput(a))],
                      0.5, SummaryMaxTokens)
  }

  /**
   * `Summarize`: an input over 2000 bytes is refused before any call;
   * otherwise the endpoint's text, or its error wrapped. Only a successful
   * call is charged, and only to the summary model.
   */
  function Summarize(c: Client, a: Article, instructions: string, chat: CompletionRequest -> ChatResponse)
    : (r: (Result<string>, Client))
    ensures Utf8Len(SummaryInput(a)) > CompletionMaxTextLength ==> r == (Err("input text for summary is too long"), c)
    ensures r.0.Ok? <==> Utf8Len(SummaryInput(a)) <= CompletionMaxTextLength && chat(SummaryRequest(a, instructions)).Completion?
    ensures r.0.Ok? ==> r.0.value == chat(SummaryRequest(a, instructions)).content
    ensures r.0.Ok? ==> r.1 == Charge(c, SummaryModel, chat(SummaryRequest(a, instructions)).usage)
    ensures r.0.Err? ==> r.1 == c
  {
    var input := SummaryInput(a);
    if Utf8Len(input) > CompletionMaxTextLength then (Err("input text for summary is too long"), c)
    else
      match chat(SummaryRequest(a, instructions))
      case ChatFailed(e) => (Err(Wrap("failed to call OpenAI API", e)), c)
      case Completion(content, used) => (Ok(content), Charge(c, SummaryModel, used))
  }

  /** Content alone longer than 2000 bytes is always refused, whatever the endpoint would say. */
  lemma LongContentRefused(c: Client, a: Article, instructions: string, chat: CompletionRequest -> ChatResponse)
    requires Utf8Len(a.content) > CompletionMaxTextLength
    ensures Summarize(c, a, instructions, chat) == (Err("input text for summary is too long"), c)
  {
    var rest := "\nCategories: " + FormatStringSlice(a.categories);
    assert SummaryInput(a) == ("Title: " + a.title + "\nContent: ") + (a.content + rest);
    Utf8Append("Title: " + a.title + "\nContent: ", a.content + rest);
    Utf8Append(a.content, rest);
  }

  // ---------------------------------------------------------------------
  // CategoryMatching
  // ---------------------------------------------------------------------

  /** The prompt line for the category numbered `i`. */
  function CategoryLine(i: nat, cat: Category): string {
    NatToString(i) + ". " + cat.name + ": " + cat.description + "\n"
  }

  /** The category lines, numbered consecutively from `first`. */
  function NumberedCategories(cats: seq<Category>, first: nat): string
    decreases |cats|
  {
    if |cats| == 0 then "" else CategoryLine(first, cats[0]) + NumberedCategories(cats[1..], first + 1)
  }

  /** Listing two runs of categories is listing the first and then continuing the numbering. */
  lemma {:induction false} NumberedConcat(xs: seq<Category>, ys: seq<Category>, first: nat)
    ensures NumberedCategories(xs + ys, first)
         == NumberedCategories(xs, first) + NumberedCategories(ys, first + |xs|)
    decreases |xs|
  {
    if |xs| == 0 {
      assert xs + ys == ys;
    } else {
      assert (xs + ys)[1..] == xs[1..] + ys;
      NumberedConcat(xs[1..], ys, first + 1);
    }
  }

  /** Category k (from 0) appears as line k+1, after the lines of all earlier categories. */
  lemma CategoryListedInOrder(cats: seq<Category>, k: nat)
    requires k < |cats|
    ensures NumberedCategories(cats[..k], 1) + CategoryLine(k + 1, cats[k]) <= NumberedCategories(cats, 1)
  {
    assert cats == cats[..k] + cats[k..];
    NumberedConcat(cats[..k], cats[k..], 1);
    assert cats[k..][0] == cats[k];
  }

  /** Listing one more category appends its line, numbered after the ones before it. */
  lemma NumberedNext(cats: seq<Category>, i: nat)
    requires i < |cats|
    ensures NumberedCategories(cats[..i + 1], 1) == NumberedCategories(cats[..i], 1) + CategoryLine(i + 1, cats[i])
  {
    NumberedConcat(cats[..i], [cats[i]], 1);
    assert cats[..i + 1] == cats[..i] + [cats[i]];
    assert NumberedCategories([cats[i]], i + 1) == CategoryLine(i + 1, cats[i]) + NumberedCategories([], i + 2);
  }

  /** The system prompt: a fixed preamble followed by one numbered line per category. */
  method CategoryPrompt(preamble: string, cats: seq<Category>) returns (prompt: string)
    ensures prompt == preamble + NumberedCategories(cats, 1)
  {
    prompt := preamble;
    var i := 0;
    while i < |cats|
      invariant 0 <= i <= |cats|
      invariant prompt == preamble + NumberedCategories(cats[..i], 1)
    {
      NumberedNext(cats, i);
      prompt := prompt + CategoryLine(i + 1, cats[i]);
      i := i + 1;
    }
    assert cats[..|cats|] == cats;
  }

  /** The article as the classification prompt shows it. */
  function MatchingUserPrompt(a: Article): string {
    "Below is the article to evaluate:\n\n"
    + "Title: " + a.title + "\nDescription: " + a.description + "\nLink: " + a.link + "\nContent: " + a.content + "\n"
  }

  function MatchingRequest(preamble: string, cats: seq<Category>, a: Article): CompletionRequest {
    CompletionRequest(ClassificationModel,
                      [Message(RoleSystem, preamble + NumberedCategories(cats, 1)), Message(RoleUser, MatchingUserPrompt(a))],
                      0.0, ClassificationMaxTokens)
  }

  /**
   * `CategoryMatching`: asks the classification model to score the article
   * against every category. A failed call is an error and is not charged; a
   * completed call is charged to the classification model even when its
   * answer does not decode. `decode` stands for the JSON decoder.
   */
  method CategoryMatching(c: Client, cats: seq<Category>, a: Article, preamble: string,
                          chat: CompletionRequest -> ChatResponse,
                          decode: string -> Result<seq<CategoryRelevance>>)
    returns (r: Result<seq<CategoryRelevance>>, c': Client)
    ensures var resp := chat(MatchingRequest(preamble, cats, a));
      && (resp.ChatFailed? ==> r == Err(Wrap("failed to call OpenAI API", resp.msg)) && c' == c)
      && (resp.Completion? ==> c' == Charge(c, ClassificationModel, resp.usage))
      && (resp.Completion? && decode(resp.content).Err? ==>
            r == Err(Wrap("failed to unmarshal relevance scores", decode(resp.content).msg)))
      && (resp.Completion? && decode(resp.content).Ok? ==> r == decode(resp.content))
  {
    var system := CategoryPrompt(preamble, cats);
    var req := CompletionRequest(ClassificationModel,
                                 [Message(RoleSystem, system), Message(RoleUser, MatchingUserPrompt(a))],
                                 0.0, ClassificationMaxTokens);
    match chat(req)
    case ChatFailed(e) =>
      r, c' := Err(Wrap("failed to call OpenAI API", e)), c;
    case Completion(content, used) =>
      c' := Charge(c, ClassificationModel, used);
      var decoded := decode(content);
      if decoded.Err? {
        r := Err(Wrap("failed to unmarshal relevance scores", decoded.msg));
      } else {
        r := decoded;
      }
  }

  // ---------------------------------------------------------------------
  // Embedding
  // ---------------------------------------------------------------------

  /**
   * `callEmbeddingAPI`: the endpoint's error is passed through uncharged; an
   * answer is charged (prompt tokens only) to the embedding model before its
   * vector count is checked against the text count.
   */
  function CallEmbeddingApi(c: Client, texts: seq<string>, embed: seq<string> -> EmbeddingResponse)
    : (r: (Result<seq<Vector>>, Client))
    ensures r.0 == EmbeddingResult(texts, embed(texts))
    ensures r.0.Ok? ==> |r.0.value| == |texts|
    ensures embed(texts).EmbeddingFailed? ==> r.1 == c
    ensures embed(texts).Embeddings? ==> r.1 == Charge(c, EmbeddingModel, TokenUsed(embed(texts).usage.prompt, 0))
  {
    var resp := embed(texts);
    match resp
    case EmbeddingFailed(e) => (Err(e), c)
    case Embeddings(data, used) =>
      var c' := Charge(c, EmbeddingModel, TokenUsed(used.prompt, 0));
      if |data| != |texts| then (Err("number of embeddings returned does not match number of texts"), c')
      else (Ok(data), c')
  }

  /**
   * The embedding of one text: a text of at most 8000 bytes is sent whole;
   * a longer one is cut into windows of 1000 runes overlapping by 200, and
   * the windows' vectors are averaged.
   */
  function EmbedOne(text: string, embed: seq<string> -> EmbeddingResponse): Result<Vector> {
    if Utf8Len(text) <= EmbeddingsMaxTextLength then
      match EmbeddingResult([text], embed([text]))
      case Err(e) => Err(e)
      case Ok(vs) => Ok(vs[0])
    else
      var chunks := Chunks(text, EmbeddingsChunkSize, EmbeddingsOverlap);
      match EmbeddingResult(chunks, embed(chunks))
      case Err(e) => Err(e)
      case Ok(vs) =>
        if |vs| == 0 then Err("no embeddings provided")
        else if !SameDim(vs) then Err("embeddings have inconsistent dimensions")
        else Ok(Mean(vs))
  }

  /** What `EmbedOne` sends for one text: the text itself, or its windows when it is long. */
  function EmbedInputs(text: string): seq<string> {
    if Utf8Len(text) <= EmbeddingsMaxTextLength then [text]
    else Chunks(text, EmbeddingsChunkSize, EmbeddingsOverlap)
  }

  /** The prompt tokens one text costs: the endpoint's count when it answers, nothing when it fails. */
  function EmbedCharge(text: string, embed: seq<string> -> EmbeddingResponse): int {
    match embed(EmbedInputs(text))
    case EmbeddingFailed(_) => 0
    case Embeddings(_, used) => used.prompt
  }

  /** The summed prompt charges of the first `n` texts, in order. */
  function EmbedCharges(texts: seq<string>, n: nat, embed: seq<string> -> EmbeddingResponse): int
    requires n <= |texts|
  {
    if n == 0 then 0 else EmbedCharges(texts, n - 1, embed) + EmbedCharge(texts[n - 1], embed)
  }

  /**
   * The embedding model went from `before` to `after` by `spent` prompt
   * tokens: embedding calls never charge completion tokens.
   */
  predicate Spent(before: TokenUsed, after: TokenUsed, spent: int) {
    after.prompt == before.prompt + spent && after.completion == before.completion
  }

  /** `c'` is `c` with `spent` prompt tokens added to the embedding model. */
  predicate Charged(c: Client, c': Client, spent: int) {
    Spent(Lookup(c.tokenUsed, EmbeddingModel), Lookup(c'.tokenUsed, EmbeddingModel), spent)
  }

  /** No model other than the embedding model changed from `c` to `c'`. */
  ghost predicate OthersKept(c: Client, c': Client) {
    forall m :: m != EmbeddingModel ==> Lookup(c'.tokenUsed, m) == Lookup(c.tokenUsed, m)
  }

  /** Sending a text's inputs charges the embedding model exactly `EmbedCharge` prompt tokens. */
  lemma CallCharges(c: Client, text: string, embed: seq<string> -> EmbeddingResponse)
    ensures Charged(c, CallEmbeddingApi(c, EmbedInputs(text), embed).1, EmbedCharge(text, embed))
  {
    var inputs := EmbedInputs(text);
    var call := CallEmbeddingApi(c, inputs, embed);
    match embed(inputs)
    case EmbeddingFailed(_) =>
      assert call.1 == c;
    case Embeddings(_, used) =>
      assert call.1 == Charge(c, EmbeddingModel, TokenUsed(used.prompt, 0));
  }

  /** Every window of a long text fits the endpoint's limit: 1000 runes are at most 4000 bytes. */
  lemma ChunksFitEmbeddingLimit(text: string, k: nat)
    requires k < |Chunks(text, EmbeddingsChunkSize, EmbeddingsOverlap)|
    ensures Utf8Len(Chunks(text, EmbeddingsChunkSize, EmbeddingsOverlap)[k]) <= EmbeddingsMaxTextLength
  {
    var chunks := Chunks(text, EmbeddingsChunkSize, EmbeddingsOverlap);
    ChunkBounds(text, EmbeddingsChunkSize, EmbeddingsOverlap, chunks, k);
    Utf8LenBounds(chunks[k]);
  }

  /**
   * One text of `Embedding`: sent whole when it is at most 8000 bytes, else
   * split into windows whose vectors are averaged. Only the embedding model
   * is charged, by the prompt tokens of the one call made.
   */
  method EmbedText(c: Client, text: string, embed: seq<string> -> EmbeddingResponse)
    returns (r: Result<Vector>, c': Client)
    ensures r == EmbedOne(text, embed)
    ensures c'.apiKey == c.apiKey
    ensures Charged(c, c', EmbedCharge(text, embed))
    ensures forall m :: m != EmbeddingModel ==> Lookup(c'.tokenUsed, m) == Lookup(c.tokenUsed, m)
  {
    if Utf8Len(text) <= EmbeddingsMaxTextLength {
      r, c' := EmbedWhole(c, text, embed);
    } else {
      r, c' := EmbedWindows(c, text, embed);
    }
    CallCharges(c, text, embed);
  }

  /** A text within the limit: one call with the text itself. */
  method EmbedWhole(c: Client, text: string, embed: seq<string> -> EmbeddingResponse)
    returns (r: Result<Vector>, c': Client)
    requires Utf8Len(text) <= EmbeddingsMaxTextLength
    ensures r == EmbedOne(text, embed)
    ensures c' == CallEmbeddingApi(c, EmbedInputs(text), embed).1
  {
    var call := CallEmbeddingApi(c, [text], embed);
    c' := call.1;
    if call.0.Err? {
      return Err(call.0.msg), c';
    }
    return Ok(call.0.value[0]), c';
  }

  /** A text over the limit: one call with its windows, whose vectors are averaged. */
  method EmbedWindows(c: Client, text: string, embed: seq<string> -> EmbeddingResponse)
    returns (r: Result<Vector>, c': Client)
    requires Utf8Len(text) > EmbeddingsMaxTextLength
    ensures r == EmbedOne(text, embed)
    ensures c' == CallEmbeddingApi(c, EmbedInputs(text), embed).1
  {
    var chunks := ChunkText(text, EmbeddingsChunkSize, EmbeddingsOverlap);
    ChunkingUnique(text, EmbeddingsChunkSize, EmbeddingsOverlap, chunks,
                   Chunks(text, EmbeddingsChunkSize, EmbeddingsOverlap));
    var call := CallEmbeddingApi(c, chunks, embed);
    c' := call.1;
    if call.0.Err? {
      return Err(call.0.msg), c';
    }
    r := AverageEmbeddings(call.0.value);
  }

  /**
   * Text `i` is the first that fails to embed, with error `msg`, and the
   * embedding model went from `before` to `after` by the charges of the
   * texts up to and including it.
   */
  predicate FirstFailure(texts: seq<string>, i: int, embed: seq<string> -> EmbeddingResponse, msg: string,
                         before: TokenUsed, after: TokenUsed)
  {
    && 0 <= i < |texts| && EmbedOne(texts[i], embed) == Err(msg)
    && (forall j :: 0 <= j < i ==> EmbedOne(texts[j], embed).Ok?)
    && Spent(before, after, EmbedCharges(texts, i + 1, embed))
  }

  /** Text `i` of `Embedding`, with the running charge of the texts before it carried one step on. */
  method EmbedStep(c0: Client, cur: Client, texts: seq<string>, i: nat, embed: seq<string> -> EmbeddingResponse)
    returns (v: Result<Vector>, next: Client)
    requires i < |texts|
    requires Charged(c0, cur, EmbedCharges(texts, i, embed))
    ensures v == EmbedOne(texts[i], embed)
    ensures next.apiKey == cur.apiKey
    ensures Charged(c0, next, EmbedCharges(texts, i + 1, embed))
    ensures OthersKept(cur, next)
  {
    v, next := EmbedText(cur, texts[i], embed);
  }

  /** The vectors so far are those of the texts they stand for, in order. */
  ghost predicate EmbedsPrefix(texts: seq<string>, results: seq<Vector>, embed: seq<string> -> EmbeddingResponse)
    requires |results| <= |texts|
  {
    forall j :: 0 <= j < |results| ==> Ok(results[j]) == EmbedOne(texts[j], embed)
  }

  /** The first text after an agreeing prefix fails: that is the first failure. */
  lemma FailureHere(texts: seq<string>, results: seq<Vector>, embed: seq<string> -> EmbeddingResponse, msg: string,
                    before: TokenUsed, after: TokenUsed)
    requires |results| < |texts|
    requires EmbedsPrefix(texts, results, embed)
    requires EmbedOne(texts[|results|], embed) == Err(msg)
    requires Spent(before, after, EmbedCharges(texts, |results| + 1, embed))
    ensures FirstFailure(texts, |results|, embed, msg, before, after)
  {
    forall j | 0 <= j < |results|
      ensures EmbedOne(texts[j], embed).Ok?
    {
      assert Ok(results[j]) == EmbedOne(texts[j], embed);
    }
  }

  /** One more embedded text keeps the vectors in step with the texts. */
  lemma ResultsExtend(results: seq<Vector>, texts: seq<string>, v: Vector, embed: seq<string> -> EmbeddingResponse)
    requires |results| < |texts|
    requires EmbedsPrefix(texts, results, embed)
    requires Ok(v) == EmbedOne(texts[|results|], embed)
    ensures EmbedsPrefix(texts, results + [v], embed)
  {
    var r' := results + [v];
    forall j | 0 <= j < |r'|
      ensures Ok(r'[j]) == EmbedOne(texts[j], embed)
    {
      if j < |results| {
        assert r'[j] == results[j];
      }
    }
  }

  /**
   * `Embedding`: one vector per text, in order, each as `EmbedOne` defines
   * it; the first text that fails aborts with its error. Only the embedding
   * model is charged.
   */
  method Embedding(c: Client, texts: seq<string>, embed: seq<string> -> EmbeddingResponse)
    returns (r: Result<seq<Vector>>, c': Client)
    ensures r.Ok? <==> forall i :: 0 <= i < |texts| ==> EmbedOne(texts[i], embed).Ok?
    ensures r.Ok? ==> |r.value| == |texts| && forall i :: 0 <= i < |texts| ==> Ok(r.value[i]) == EmbedOne(texts[i], embed)
    ensures r.Err? ==> exists i :: FirstFailure(texts, i, embed, r.msg, Lookup(c.tokenUsed, EmbeddingModel),
                                                Lookup(c'.tokenUsed, EmbeddingModel))
    ensures r.Ok? ==> Charged(c, c', EmbedCharges(texts, |texts|, embed))
    ensures c'.apiKey == c.apiKey
    ensures OthersKept(c, c')
  {
    var cur := c;
    var results: seq<Vector> := [];
    var i := 0;
    while i < |texts|
      invariant 0 <= i <= |texts| && |results| == i
      invariant EmbedsPrefix(texts, results, embed)
      invariant cur.apiKey == c.apiKey
      invariant Charged(c, cur, EmbedCharges(texts, i, embed))
      invariant OthersKept(c, cur)
    {
      var v;
      v, cur := EmbedStep(c, cur, texts, i, embed);
      if v.Err? {
        FailureHere(texts, results, embed, v.msg, Lookup(c.tokenUsed, EmbeddingModel), Lookup(cur.tokenUsed, EmbeddingModel));
        return Err(v.msg), cur;
      }
      ResultsExtend(results, texts, v.value, embed);
      results := results + [v.value];
      i := i + 1;
    }
    return Ok(results), cur;
  }

}
