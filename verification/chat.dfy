/** The message list and the response shapes the two chat providers share. */
module Chat {
  import opened Wrappers
  import opened Usage

  const RoleSystem: string := "system"
  const RoleUser: string := "user"

  datatype Message = Message(role: string, content: string)

  /**
   * The messages of a chat request: a system message iff the system text is
   * non-empty, a user message iff the user text is non-empty, system first.
   */
  function BuildMessages(systemMsg: string, userMsg: string): (ms: seq<Message>)
    ensures |ms| == (if systemMsg != "" then 1 else 0) + (if userMsg != "" then 1 else 0)
    ensures Message(RoleSystem, systemMsg) in ms <==> systemMsg != ""
    ensures Message(RoleUser, userMsg) in ms <==> userMsg != ""
    ensures systemMsg != "" ==> ms[0] == Message(RoleSystem, systemMsg)
    ensures userMsg != "" ==> ms[|ms| - 1] == Message(RoleUser, userMsg)
    ensures forall m :: m in ms ==> m.content != ""
  {
    (if systemMsg != "" then [Message(RoleSystem, systemMsg)] else [])
    + (if userMsg != "" then [Message(RoleUser, userMsg)] else [])
  }

  /** What a provider's chat endpoint answered. */
  datatype ChatResponse = ChatFailed(msg: string) | Completion(content: string, usage: TokenUsed)

  /** What a provider's embedding endpoint answered: vectors in response order. */
  datatype EmbeddingResponse = EmbeddingFailed(msg: string) | Embeddings(data: seq<seq<real>>, usage: TokenUsed)

  /** What one call of the embedding endpoint yields: the vectors, one per text, in order. */
  function EmbeddingResult(texts: seq<string>, resp: EmbeddingResponse): (r: Result<seq<seq<real>>>)
    ensures r.Ok? <==> resp.Embeddings? && |resp.data| == |texts|
    ensures r.Ok? ==> r.value == resp.data
    ensures resp.EmbeddingFailed? ==> r == Err(resp.msg)
    ensures resp.Embeddings? && |resp.data| != |texts| ==>
              r == Err("number of embeddings returned does not match number of texts")
  {
    match resp
    case EmbeddingFailed(e) => Err(e)
    case Embeddings(data, _) =>
      if |data| != |texts| then Err("number of embeddings returned does not match number of texts")
      else Ok(data)
  }
}
