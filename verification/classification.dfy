/**
 * The classification engine: scores an article against the configured
 * categories either by asking the LLM or by cosine similarity against
 * pre-encoded category vectors, and keeps the categories whose relevance
 * reaches the threshold. The LLM client calls the engine makes are oracle
 * results handed in by the caller.
 */
module Classification {
  import opened Wrappers
  import opened Types
  import opened Seqs
  import opened Vectors

  const EngineLlm: string := "llm"
  const EngineEmbeddings: string := "embeddings"

  /** `llm.classification`: which engine, which model, and the relevance threshold. */
  datatype Config = Config(engine: string, model: string, threshold: real)

  /** The engine and its cache of category vectors, keyed by category name. */
  datatype Engine = Engine(cfg: Config, categories: seq<Category>, encCategories: map<string, seq<real>>)

  /**
   * `New`: only the embeddings engine encodes the categories up front, and a
   * failure to encode aborts construction; any other engine starts with an
   * empty cache. `encoded` is what encoding the categories returned.
   */
  function New(cfg: Config, categories: seq<Category>, encoded: Result<map<string, seq<real>>>): (r: Result<Engine>)
    ensures r.Err? <==> cfg.engine == EngineEmbeddings && encoded.Err?
    ensures r.Err? ==> r.msg == Wrap("failed to get embeddings for categories", encoded.msg)
    ensures r.Ok? ==> r.value.cfg == cfg && r.value.categories == categories
    ensures r.Ok? && cfg.engine == EngineEmbeddings ==> r.value.encCategories == encoded.value
    ensures r.Ok? && cfg.engine != EngineEmbeddings ==> r.value.encCategories == map[]
  {
    if cfg.engine == EngineEmbeddings then
      match encoded
      case Err(e) => Err(Wrap("failed to get embeddings for categories", e))
      case Ok(enc) => Ok(Engine(cfg, categories, enc))
    else Ok(Engine(cfg, categories, map[]))
  }

  /** A match that reaches the threshold (equality counts). */
  predicate Reaches(m: CategoryRelevance, threshold: real) {
    m.relevance >= threshold
  }

  /** The matches that reach the threshold, unmodified and in their order. */
  function Passing(matches: seq<CategoryRelevance>, threshold: real): seq<CategoryRelevance> {
    Filter(matches, m => Reaches(m, threshold))
  }

  // ---------------------------------------------------------------------
  // LLM engine
  // ---------------------------------------------------------------------

  /**
   * `classifyWithLLM`: a client error is wrapped and nothing is returned;
   * otherwise exactly the matches whose relevance reaches the threshold, in
   * the order the LLM gave them.
   */
  function ClassifyWithLlm(e: Engine, matches: Result<seq<CategoryRelevance>>): (r: Result<seq<CategoryRelevance>>)
    ensures r.Err? <==> matches.Err?
    ensures r.Err? ==> r.msg == Wrap("failed to get category matches", matches.msg)
    ensures r.Ok? ==> forall m :: m in r.value <==> m in matches.value && m.relevance >= e.cfg.threshold
    ensures r.Ok? ==> IsSubsequence(r.value, matches.value)
    ensures r.Ok? ==> |r.value| == Count(matches.value, m => Reaches(m, e.cfg.threshold))
  {
    match matches
    case Err(err) => Err(Wrap("failed to get category matches", err))
    case Ok(ms) => Ok(Passing(ms, e.cfg.threshold))
  }

  /** A threshold at or below every score keeps all matches; one above every score keeps none. */
  lemma LlmThresholdExtremes(e: Engine, ms: seq<CategoryRelevance>)
    ensures (forall i :: 0 <= i < |ms| ==> ms[i].relevance >= e.cfg.threshold) ==> ClassifyWithLlm(e, Ok(ms)) == Ok(ms)
    ensures (forall i :: 0 <= i < |ms| ==> ms[i].relevance < e.cfg.threshold) ==> ClassifyWithLlm(e, Ok(ms)) == Ok([])
  {
    FilterAllOrNothing(ms, m => Reaches(m, e.cfg.threshold));
  }

  // ---------------------------------------------------------------------
  // Embeddings engine
  // ---------------------------------------------------------------------

  /** `sim * 10`: the similarity rescaled to the 0..10 relevance scale. */
  function Relevance(articleVec: seq<real>, catVec: seq<real>, measure: (real, real, real) -> real): real {
    CosineSimilarity(articleVec, catVec, measure) * 10.0
  }

  /** The entry emitted for a category that passes: its name, its relevance, no explanation. */
  function EmbeddingEntry(name: string, articleVec: seq<real>, catVec: seq<real>, measure: (real, real, real) -> real)
    : CategoryRelevance
  {
    CategoryRelevance(name, Relevance(articleVec, catVec, measure), "")
  }

  ghost predicate Distinct<T>(xs: seq<T>) {
    forall i, j :: 0 <= i < j < |xs| ==> xs[i] != xs[j]
  }

  /**
   * The loop of `classifyWithEmbeddings` over the cache, visiting names in
   * `order` (Go's map iteration order): an entry per visited name whose
   * relevance reaches the threshold, in visiting order.
   */
  function EmbeddingMatches(enc: map<string, seq<real>>, articleVec: seq<real>, order: seq<string>,
                            threshold: real, measure: (real, real, real) -> real)
    : (out: seq<CategoryRelevance>)
    requires forall i :: 0 <= i < |order| ==> order[i] in enc
    ensures forall x :: x in out ==>
              && x.category in order
              && x == EmbeddingEntry(x.category, articleVec, enc[x.category], measure)
              && x.relevance >= threshold
    ensures forall name :: name in order && Relevance(articleVec, enc[name], measure) >= threshold ==>
              EmbeddingEntry(name, articleVec, enc[name], measure) in out
    ensures Distinct(order) ==> forall i, j :: 0 <= i < j < |out| ==> out[i].category != out[j].category
    decreases |order|
  {
    if |order| == 0 then []
    else
      var name := order[|order| - 1];
      var prefix := EmbeddingMatches(enc, articleVec, order[..|order| - 1], threshold, measure);
      assert forall x :: x in order ==> x in order[..|order| - 1] || x == name;
      if Relevance(articleVec, enc[name], measure) >= threshold
      then prefix + [EmbeddingEntry(name, articleVec, enc[name], measure)]
      else prefix
  }

  /**
   * `classifyWithEmbeddings`: an error encoding the article is wrapped and
   * nothing is returned. Otherwise every cached category whose relevance
   * sim * 10 reaches the threshold, and only those, each once, with an empty
   * explanation. `order` is the map's iteration order: each key once.
   */
  function ClassifyWithEmbeddings(e: Engine, articleVec: Result<seq<real>>, order: seq<string>,
                                  measure: (real, real, real) -> real)
    : (r: Result<seq<CategoryRelevance>>)
    requires Distinct(order) && forall k :: k in e.encCategories <==> k in order
    ensures r.Err? <==> articleVec.Err?
    ensures r.Err? ==> r.msg == Wrap("failed to get embedding for article categories", articleVec.msg)
    ensures r.Ok? ==> forall x :: x in r.value ==>
              && x.category in e.encCategories
              && x.explanation == ""
              && x.relevance == Relevance(articleVec.value, e.encCategories[x.category], measure)
              && x.relevance >= e.cfg.threshold
    ensures r.Ok? ==> forall name ::
              (name in e.encCategories && Relevance(articleVec.value, e.encCategories[name], measure) >= e.cfg.threshold) ==>
              EmbeddingEntry(name, articleVec.value, e.encCategories[name], measure) in r.value
    ensures r.Ok? ==> forall i, j :: 0 <= i < j < |r.value| ==> r.value[i].category != r.value[j].category
  {
    assert forall i :: 0 <= i < |order| ==> order[i] in e.encCategories;
    match articleVec
    case Err(err) => Err(Wrap("failed to get embedding for article categories", err))
    case Ok(vec) => Ok(EmbeddingMatches(e.encCategories, vec, order, e.cfg.threshold, measure))
  }

  /**
   * A cached vector whose length differs from the article's scores exactly
   * -10, so it is never emitted unless the threshold is at most -10.
   */
  lemma MismatchedCategoryNeverMatches(e: Engine, vec: seq<real>, order: seq<string>,
                                       measure: (real, real, real) -> real, name: string)
    requires Distinct(order) && forall k :: k in e.encCategories <==> k in order
    requires name in e.encCategories && |e.encCategories[name]| != |vec|
    requires e.cfg.threshold > -10.0
    ensures forall x :: x in ClassifyWithEmbeddings(e, Ok(vec), order, measure).value ==> x.category != name
  {
  }

  // ---------------------------------------------------------------------
  // Classify
  // ---------------------------------------------------------------------

  /**
   * `Classify`: the LLM engine or the embeddings engine by configuration;
   * any other engine name is an error.
   */
  function Classify(e: Engine, llmMatches: Result<seq<CategoryRelevance>>, articleVec: Result<seq<real>>,
                    order: seq<string>, measure: (real, real, real) -> real)
    : (r: Result<seq<CategoryRelevance>>)
    requires Distinct(order) && forall k :: k in e.encCategories <==> k in order
    ensures e.cfg.engine == EngineLlm ==> r == ClassifyWithLlm(e, llmMatches)
    ensures e.cfg.engine == EngineEmbeddings ==> r == ClassifyWithEmbeddings(e, articleVec, order, measure)
    ensures e.cfg.engine != EngineLlm && e.cfg.engine != EngineEmbeddings ==>
              r == Err("unknown classification engine type: " + e.cfg.engine)
  {
    if e.cfg.engine == EngineLlm then ClassifyWithLlm(e, llmMatches)
    else if e.cfg.engine == EngineEmbeddings then ClassifyWithEmbeddings(e, articleVec, order, measure)
    else Err("unknown classification engine type: " + e.cfg.engine)
  }
}
